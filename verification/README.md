# butano graphics tool, sprite animation action and SRAM routines in Dafny

This project models three parts of the butano Game Boy Advance engine.

**The graphics asset compiler** (`butano/tools/*.py`). For every image
(`.bmp` or `.png`) in the graphics folders that has a JSON descriptor beside
it, the tool does four things:

- it decides whether the image is stale, by comparing modification times
  with a per-item ledger file;
- it builds the item the descriptor names: sprite, sprite tiles, sprite
  palette, fixed background or affine background;
- it runs the external `grit` converter with switches derived from the
  item's settings;
- it reads back grit's report and writes a C++ header.

Each item compresses its tiles, palette and map independently. A setting of
`auto` tries `none`, `run_length` and `lz77` in that order and keeps the
smallest total size; on a tie the earlier one stays. The 8-bit BMP header
decoder is modelled byte by byte. The whole run ends with one of two summaries:

- every file succeeded: the total size;
- some file failed: the failures, then exit code -1.

**`sprite_animate_action`** (`btn_sprite_actions.h`). This is a class that
shows a sequence of graphics of a sprite tiles item. It holds each graphic
for `wait_frames` updates. Its index is a `uint16_t`, so it wraps at 65536. A
`once` action stops after the last graphic; a `forever` action starts over.

**The SRAM byte loops** `_copy` and `_fill` (`bn_hw_sram.bn_ewram.cpp`).

The model takes the source's own form:

- Item constructors and `process` are pure functions (`Build`, `Compile`).
  Beside each one sits the imperative method that performs the source's
  steps (`New`, `Process`, `BuildCommand`, `ReadReport`, ...). Each method
  is proved equal to its function.
- The loops of the tool are methods with invariants:
  - the report scan;
  - the directory walk;
  - the palette-name check;
  - the BMP reads;
  - the final report.
- The animation action is a class with `modifies` clauses.
- The SRAM routines loop over arrays.

The outside world becomes parameters:

- `grit` is a `Codec` function from command words to report lines, or
  `None` on failure;
- the file system is a `FileSystem` value of listings and modification
  times;
- the JSON parser, the PNG decoder and the quantizer are functions in an
  `Environment`.

## Model

| member | source | states |
|---|---|---|
| Util.ValidateCompression | butano/tools/util.py:16-18 | an accepted spelling is the name of the setting returned; anything else fails with that spelling |
| Util.ValidateCompressionAccepts | butano/tools/util.py:16-18 | exactly the four spellings none, lz77, run_length and auto are accepted |
| Util.ValidateCompressionRoundTrip | butano/tools/util.py:16-18 | validating a setting's name gives that setting back |
| Util.CompressionLabel | butano/tools/util.py:21-31 | a label exists exactly for none, lz77 and run_length; every other spelling, auto included, raises |
| Util.CompressionLabelInjective | butano/tools/util.py:21-31 | distinct settings have distinct C++ labels |
| Util.CompressionLabelNeedsResolved | butano/tools/util.py:21-31 | a setting has a label if and only if it is not auto |
| Util.Label | butano/tools/util.py:21-31 | the label of a resolved setting is the one compression_label accepts for its name |
| Util.RoundUpColors | butano/tools/bmp.py:68-72 | the result is the least multiple of 16 that is at least the count, and a multiple is kept as it is |
| Util.RoundUpColorsClosedForm | butano/tools/sprite_palette.py:21-26 | the round-up equals n + (16 - n % 16) % 16 |
| Util.ProcessorFor | butano/tools/util.py:10-13 | PNG decoding is chosen exactly for paths ending in .png, BMP for all others |
| Util.ProcessorForExtension | butano/tools/util.py:10-13 | a .png name selects PNG and a .bmp name selects BMP |
| Bmp.MaxOf | butano/tools/bmp.py:68 | the maximum is one of the pixels and no pixel exceeds it |
| Bmp.Skip | butano/tools/bmp.py:54 | a skip advances the cursor by n bytes, or stops at the end of the file when fewer remain |
| Bmp.DecodeHeader | butano/tools/bmp.py:22-52 | each check in source order names its own error: header size 108, any other size than 40, a zero or non-multiple-of-8 width, then height, a depth other than 4 or 8, a non-zero compression; a file too short for the fields read is truncated, and only then; a 40-byte header passing every check decodes to the fields at their fixed offsets, and a decoded header passed every check |
| Bmp.AreaWholeTiles | butano/tools/bmp.py:35-64 | once width and height pass their checks (non-zero, multiples of 8), the unpadded pixel count is non-zero and a whole number of 8x8 tiles |
| Bmp.Decode | butano/tools/bmp.py:12-78 | a valid 4bpp header always decodes, with 16 colours; a valid 8bpp header decodes exactly when the colour table and the pixels fit in the file, with the largest pixel plus one rounded up to 16 colours, and is truncated otherwise; every count lies in [16, 256], so the colour count check never fires; a header error propagates unchanged |
| Bmp.ReadHeader | butano/tools/bmp.py:15-55 | the cursor reads agree with DecodeHeader, and the cursor stops after the 20 skipped bytes |
| Bmp.LargestPixel | butano/tools/bmp.py:65-68 | the pixel loop yields MaxOf |
| Bmp.Load | butano/tools/bmp.py:12-78 | the sequential decoder agrees with Decode on every input |
| GritReport.FirstInt | butano/tools/sprite.py:159-164 | the tile count is the first word that parses as an optionally signed ASCII decimal, and no earlier word parses |
| GritReport.FirstIntWord | butano/tools/sprite.py:159-164 | the word loop yields FirstInt |
| GritReport.ReadTiles | butano/tools/sprite.py:158-164 | the ' tiles ' branch yields the count TilesAfter gives |
| GritReport.ReadTotal | butano/tools/sprite.py:166-167 | the 'Total size:' branch yields TotalOf: the last word's integer, or the error for a line with no words or a last word that does not parse |
| GritReport.ReadReport | butano/tools/sprite.py:157-172 | the line loop yields the report scan, stopping at the first Total size line |
| GritReport.ScanStopsAtFirstTotalLine | butano/tools/sprite.py:166-172 | a successful scan takes its total from the first Total size line, and that line's last word parses |
| GritReport.ScanRespectsTilesLimit | butano/tools/fixed_bg.py:188-189 | with a tile ceiling, a count that survives the scan is within the ceiling |
| GritReport.ScanRejectsTooManyTiles | butano/tools/fixed_bg.py:180-189 | with a tile ceiling, the first ' tiles ' line above it, before any 'Total size:' line, ends the scan with that count as the error |
| GritReport.ScanTilesFromTilesLine | butano/tools/sprite.py:157-164 | the count comes from a ' tiles ' line before the total; an item that reads no tiles keeps its count |
| Optimizer.Rank | butano/tools/sprite.py:111-127 | every resolved setting has its position in the trial order none, run_length, lz77 |
| Optimizer.Keep | butano/tools/sprite.py:129-145 | a trial wins only with no best yet or a strictly smaller size; a tie keeps the earlier one |
| Optimizer.Choose | butano/tools/sprite.py:111-127 | an explicit setting is kept, and auto never survives the choice |
| Optimizer.ChooseIsSmallest | butano/tools/sprite.py:111-145 | auto settles on a candidate no larger than any other, strictly smaller than every candidate tried before it |
| Optimizer.ChooseFailsOnFirstFailure | butano/tools/sprite.py:111-127 | auto fails exactly when some trial fails, with the error of the first failing trial |
| Optimizer.ChooseTieKeepsNone | butano/tools/sprite.py:129-136 | equal sizes everywhere keep none |
| Optimizer.Optimise | butano/tools/sprite.py:111-127 | the chain of trials and reassignments yields Choose |
| Items.ResolveCompression | butano/tools/sprite.py:91-109 | the specific key wins over 'compression', which wins over 'none'; a present but invalid value raises rather than falling through |
| Items.ResolveCompressionIsFirstPresent | butano/tools/fixed_bg.py:82-113 | the fallback is the validation of the first present spelling |
| Items.PaletteItemCheck | butano/tools/fixed_bg.py:39-60 | a name is accepted exactly when it is non-empty, starts with a-z and uses only [_a-z0-9]; otherwise the error is the empty name or the first offending character |
| Items.FirstInvalidFrom | butano/tools/fixed_bg.py:39-60 | the reported character is the first one outside [_a-z0-9] |
| Items.CheckPaletteItem | butano/tools/affine_bg.py:32-53 | the character loop yields PaletteItemCheck |
| Items.PaletteItemOf | butano/tools/fixed_bg.py:39-60 | with no palette_item key there is no external palette; a present one is accepted exactly when valid |
| Items.CompressionFlags | butano/tools/fixed_bg.py:283-296 | at most one flag per field, and none exactly for an uncompressed field |
| Items.AppendCompressionFlag | butano/tools/fixed_bg.py:283-296 | the if/elif appends exactly that field's flag |
| Items.PaletteSwitch | butano/tools/fixed_bg.py:250-253 | palette entries are requested exactly for a positive colour count, and -p! exactly otherwise |
| Items.PaletteEntriesFlag | butano/tools/sprite.py:212 | the palette switch starts with -pe and is neither a compression nor an output switch |
| Items.PaletteEntriesFlagCount | butano/tools/sprite.py:212 | the text after -pe is the count in decimal: it reads back as exactly the count |
| Items.OutputFlag | butano/tools/sprite.py:229 | the output switch starts with -o |
| Items.EncodingFlags | butano/tools/fixed_bg.py:283-296 | the flags of the three fields are all compression switches |
| Items.FlagInEncodingFlags | butano/tools/fixed_bg.py:283-296 | a field's compression flag is among the flags exactly when that field uses that compression |
| Items.AppendEncodingFlags | butano/tools/fixed_bg.py:283-296 | the three if/elif blocks append the tiles, palette and map flags after the command, in that order |
| Items.RunGrit | butano/tools/sprite.py:152-172 | a failing grit run raises; otherwise the result is the scan of grit's report |
| Items.TrialSize | butano/tools/sprite.py:166-170 | a trial run returns the reported total size exactly when the run succeeds |
| Items.TrialSizeIsFirstTotal | butano/tools/sprite.py:166-170 | a trial's value is the last word of the first 'Total size:' line of grit's report |
| Sprite.ShapeAndSize | butano/tools/sprite.py:14-64 | a shape and size class exist exactly for the twelve hardware sizes; square, wide and tall follow the sides |
| Sprite.ShapeAndSizeDomain | butano/tools/sprite.py:14-64 | the accepted sizes are the pairs of 8, 16, 32 and 64 except 8x64, 16x64, 64x8 and 64x16 |
| Sprite.ShapeAndSizeInjective | butano/tools/sprite.py:14-64 | no two sizes share a shape and size class |
| Sprite.Build | butano/tools/sprite.py:66-109 | height is required and must divide the image; width defaults to height; frames count (h/fh)*(w/fw); the size is a hardware size; both compressions resolve; every valid descriptor builds |
| Sprite.CommandDepthFlag | butano/tools/sprite.py:212-219 | the command asks for 4 bits per pixel exactly for 16 colours |
| Sprite.CommandTilesFlag | butano/tools/sprite.py:220-224 | a tiles compression flag appears exactly for a compressed tiles setting |
| Sprite.CommandPaletteFlag | butano/tools/sprite.py:225-229 | a palette compression flag appears exactly for a compressed palette setting |
| Sprite.FixedSwitches | butano/tools/sprite.py:212-217 | the switches before the compression flags are neither compression nor output switches |
| Sprite.CommandHead | butano/tools/sprite.py:212-217 | the first appends give the image, -gt, the palette entries and the depth of the colour count |
| Sprite.TrialsForceOtherFieldToNone | butano/tools/sprite.py:111-127 | a tiles trial carries no palette compression flag, and a palette trial no tiles flag |
| Sprite.BuildCommand | butano/tools/sprite.py:211-235 | the appends build the command of the settings |
| Sprite.Compile | butano/tools/sprite.py:111-127 | the declared compressions are the optimiser's choices; 16 colours are 4bpp; the tile count is grit's count, doubled at 8bpp; the total size is grit's; the first failing choice or grit run is the error, a report without a tile count is an error, and otherwise process succeeds |
| Sprite.Process | butano/tools/sprite.py:111-127 | the step-by-step process yields Compile |
| Sprite.CompileTilesIsSmallestTrial | butano/tools/sprite.py:129-136 | an auto tiles setting ends as the smallest trial, the earliest on a tie |
| SpriteTiles.Build | butano/tools/sprite_tiles.py:13-35 | height is required and must divide the image; the frame size is width by height and must be a hardware size; the compression comes from 'compression' alone; every valid descriptor builds |
| SpriteTiles.BuildIgnoresTilesCompression | butano/tools/sprite_tiles.py:31-35 | the tiles_compression key has no effect |
| SpriteTiles.CommandFlags | butano/tools/sprite_tiles.py:119-132 | no palette is emitted; 4bpp exactly for 16 colours; a tiles flag exactly for a compressed setting |
| SpriteTiles.FixedSwitches | butano/tools/sprite_tiles.py:120-125 | the switches before the compression flag are neither compression nor output switches |
| SpriteTiles.CommandHead | butano/tools/sprite_tiles.py:120-125 | the first appends give the image, -gt, -p! and the depth of the colour count |
| SpriteTiles.BuildCommand | butano/tools/sprite_tiles.py:119-138 | the appends build the command of the setting |
| SpriteTiles.Compile | butano/tools/sprite_tiles.py:37-46 | the declared compression is the optimiser's choice; the tile count is grit's, doubled at 8bpp; a failing choice or grit run is the error, a report without a tile count is an error, and otherwise process succeeds |
| SpriteTiles.Process | butano/tools/sprite_tiles.py:37-46 | the step-by-step process yields Compile |
| SpritePalette.ColorsCount | butano/tools/sprite_palette.py:9-28 | without colors_count the image's count is used; an explicit count outside [1, 256] raises; a valid one is rounded up to the least multiple of 16 |
| SpritePalette.ColorsCountKeepsMultiples | butano/tools/sprite_palette.py:21-26 | a multiple of 16 is kept as it is |
| SpritePalette.Build | butano/tools/sprite_palette.py:9-34 | the item builds exactly when the colour count and the compression are valid, and carries both |
| SpritePalette.CommandFlags | butano/tools/sprite_palette.py:104-112 | no tiles are emitted, the palette entry count is the item's, and a palette flag appears exactly for a compressed setting |
| SpritePalette.FixedSwitches | butano/tools/sprite_palette.py:105 | the switches before the compression flag are neither compression nor output switches |
| SpritePalette.BuildCommand | butano/tools/sprite_palette.py:104-118 | the appends build the command of the setting |
| SpritePalette.Compile | butano/tools/sprite_palette.py:36-45 | the declared compression is the optimiser's choice; 4bpp exactly for 16 colours; the run succeeds whenever the choice and grit succeed |
| SpritePalette.Process | butano/tools/sprite_palette.py:36-45 | the step-by-step process yields Compile |
| FixedBg.ResolveDepth | butano/tools/fixed_bg.py:62-80 | an inline palette of at most 16 colours is 4bpp; an external palette needs bpp_mode and cannot be bpp_4_auto; unknown modes raise; 8bpp and quantisation happen exactly in the stated cases |
| FixedBg.Build | butano/tools/fixed_bg.py:9-113 | the image must be 240x160, giving a 30x20 map; an invalid palette name and every bpp_mode error of ResolveDepth are Build's errors; the compressions' errors follow in source order, and a valid descriptor always builds; the item is 8bpp exactly when ResolveDepth says so (no mode or bpp_8 with an inline palette over 16 colours, bpp_8 with an external one); unless quantised it keeps the file and the colour count (none for an external palette); quantisation switches the file path and colour count |
| FixedBg.BuildIgnoresBppModeForSmallPalettes | butano/tools/fixed_bg.py:62-80 | an inline palette of at most 16 colours never reads bpp_mode |
| FixedBg.New | butano/tools/fixed_bg.py:9-113 | the field-by-field constructor yields Build |
| FixedBg.ReductionFlagInjective | butano/tools/fixed_bg.py:255-276 | the eight depth and reduction combinations give eight distinct switches |
| FixedBg.ReductionFlag | butano/tools/fixed_bg.py:255-276 | every choice is a map-reduction switch, never a compression switch |
| FixedBg.FixedSwitches | butano/tools/fixed_bg.py:250-281 | the palette, depth, reduction and layout switches are neither compression nor output switches |
| FixedBg.CommandHead | butano/tools/fixed_bg.py:248-281 | the if/else chains give the image followed by the palette, depth, reduction and layout switches |
| FixedBg.CommandPaletteAndDepth | butano/tools/fixed_bg.py:250-267 | palette entries appear exactly for a positive colour count, -p! otherwise, and the depth switch follows the item |
| FixedBg.CommandCompressionFlag | butano/tools/fixed_bg.py:283-296 | each field's flag appears exactly when that field uses that compression |
| FixedBg.TrialsForceOtherFieldsToNone | butano/tools/fixed_bg.py:115-137 | a trial of one field leaves the two others uncompressed |
| FixedBg.BuildCommand | butano/tools/fixed_bg.py:247-304 | the appends build the command of the settings |
| FixedBg.Settle | butano/tools/fixed_bg.py:115-137 | each field is the optimiser's choice for that field, and none is auto; the first failing choice is the error, and three successful choices settle |
| FixedBg.Compile | butano/tools/fixed_bg.py:115-137 | grit's reported count is within the ceiling and is doubled at 8bpp; the palette is external exactly with a palette_item; the compressions are the settled ones; a settling or grit error is the error, a report without a tile count is an error, and otherwise process succeeds |
| FixedBg.CompileRejectsTooManyTiles | butano/tools/fixed_bg.py:180-189 | the first ' tiles ' line of the final report with more than 1024 tiles makes process fail with that count |
| FixedBg.Process | butano/tools/fixed_bg.py:115-137 | the step-by-step process yields Compile |
| AffineBg.Build | butano/tools/affine_bg.py:9-86 | each side must be 128 or a multiple of 256; the map is one cell per 8 pixels; an external palette has no colours and no palette compression; an invalid palette name, then each invalid compression in source order, is Build's error; valid sides, palette name and compressions always build |
| AffineBg.ValidSideCells | butano/tools/affine_bg.py:18-22 | a valid side is a whole number of 8-pixel cells |
| AffineBg.New | butano/tools/affine_bg.py:9-86 | the field-by-field constructor yields Build |
| AffineBg.CommandPaletteAndLayout | butano/tools/affine_bg.py:216-226 | 8bpp, affine layout and 8-bit map entries, with palette entries exactly for a positive colour count |
| AffineBg.CommandReduction | butano/tools/affine_bg.py:218-226 | repeated-tile reduction is requested exactly when it is on |
| AffineBg.FixedSwitches | butano/tools/affine_bg.py:216-226 | the depth, layout, palette and reduction switches are neither compression nor output switches |
| AffineBg.CommandHead | butano/tools/affine_bg.py:216-226 | the first appends give the image, -gB8 -mLa -mu8, the palette switch and the reduction switch |
| AffineBg.CommandCompressionFlag | butano/tools/affine_bg.py:228-241 | each field's flag appears exactly when that field uses that compression |
| AffineBg.TrialsForceOtherFieldsToNone | butano/tools/affine_bg.py:88-110 | a trial of one field leaves the two others uncompressed |
| AffineBg.BuildCommand | butano/tools/affine_bg.py:215-249 | the appends build the command of the settings |
| AffineBg.Settle | butano/tools/affine_bg.py:88-110 | each field is the optimiser's choice for that field (the smallest trial, the earlier on a tie), and none is auto; the first failing choice is the error, and three successful choices settle |
| AffineBg.Compile | butano/tools/affine_bg.py:139-176 | grit's reported count is within 256 and the declared count is twice it; the palette is external or a local 8bpp one; a settling or grit error is the error, a report without a tile count is an error, and otherwise process succeeds |
| AffineBg.CompileRejectsTooManyTiles | butano/tools/affine_bg.py:152-162 | the first ' tiles ' line of the final report with more than 256 tiles makes process fail with that count |
| AffineBg.Process | butano/tools/affine_bg.py:88-110 | the step-by-step process yields Compile |
| Text.SplitOn | butano/tools/butano_graphics_tool.py:85 | the split has at least one field and no field contains the separator |
| Text.JoinSplitOn | butano/tools/butano_graphics_tool.py:85 | joining the fields of a split gives the string back |
| Text.SplitJoinOn | butano/tools/butano_graphics_tool.py:85 | splitting a join of separator-free fields gives the fields back |
| Text.WordsAreWords | butano/tools/sprite.py:159 | every word of `str.split()` is non-empty and free of whitespace |
| Text.WordsOfJoin | butano/tools/sprite.py:159 | splitting words joined by whitespace gives the words back, so the words are the maximal whitespace-free runs |
| Text.ParseIntToString | butano/tools/sprite.py:212 | `int(str(n)) == n` for every integer |
| GraphicsTool.SplitExt | butano/tools/butano_graphics_tool.py:96-98 | stem and extension concatenate to the name; an extension starts with its only dot and follows a stem that is not all dots |
| GraphicsTool.SplitExtOfStemAndExtension | butano/tools/butano_graphics_tool.py:96-98 | a stem and a dotted extension are split apart again |
| GraphicsTool.NeedsBuild | butano/tools/butano_graphics_tool.py:113-123 | a file is rebuilt exactly when it has no ledger or its ledger is older than its image or its JSON |
| GraphicsTool.Visit | butano/tools/butano_graphics_tool.py:95-128 | one entry only adds to the seen stems, and adds its record to the selection exactly when it is stale |
| GraphicsTool.VisitKeepsConsistent | butano/tools/butano_graphics_tool.py:95-128 | one entry keeps every selected file stale, present, with a JSON file, and unique by stem |
| GraphicsTool.VisitNamesKeepsConsistent | butano/tools/butano_graphics_tool.py:92-128 | the loop over one listing keeps every selected file stale, present and unique by stem |
| GraphicsTool.VisitFoldersKeepsConsistent | butano/tools/butano_graphics_tool.py:89-128 | the loop over the folders keeps every selected file stale, present and unique by stem |
| GraphicsTool.VisitNamesStep | butano/tools/butano_graphics_tool.py:95-128 | a non-graphics entry is skipped; a graphics entry succeeds exactly when its stem is new and its JSON file exists, then marks the stem seen and selects the file if stale |
| GraphicsTool.VisitNamesSelects | butano/tools/butano_graphics_tool.py:92-128 | one listing's loop appends exactly the stale files of the listing, in listing order |
| GraphicsTool.VisitFoldersSelects | butano/tools/butano_graphics_tool.py:89-128 | the folder loop appends exactly the stale files of every folder, folder by folder |
| GraphicsTool.StaleFilesMembers | butano/tools/butano_graphics_tool.py:92-128 | a listing's stale files are exactly the records of its stale entries |
| GraphicsTool.AllStaleFilesMembers | butano/tools/butano_graphics_tool.py:89-128 | the folders' stale files are exactly the records of the stale entries of the listed folders |
| GraphicsTool.VisitNamesSucceeds | butano/tools/butano_graphics_tool.py:92-128 | one listing succeeds exactly when its stems are distinct and unseen and every image has its JSON file |
| GraphicsTool.VisitNamesSeen | butano/tools/butano_graphics_tool.py:101-105 | after a successful listing the seen set has grown by exactly its stems |
| GraphicsTool.VisitFoldersSucceeds | butano/tools/butano_graphics_tool.py:89-128 | the folder loop succeeds exactly when every folder exists, no stem repeats across folders and none was seen before |
| GraphicsTool.Discover | butano/tools/butano_graphics_tool.py:84-130 | the files returned are exactly the stale files of the listed folders, in listing order; each is a stale image with its JSON file, and no two share a stem |
| GraphicsTool.DiscoverFindsStaleFiles | butano/tools/butano_graphics_tool.py:84-130 | a stale graphics file of a listed folder is returned, and every file returned is one: an image is rebuilt exactly when its ledger is absent or older than it or its JSON file |
| GraphicsTool.DiscoverSucceedsIff | butano/tools/butano_graphics_tool.py:84-130 | discovery succeeds exactly when every folder exists, every image has its JSON file and no stem repeats |
| GraphicsTool.VisitFile | butano/tools/butano_graphics_tool.py:95-128 | the imperative entry step yields Visit |
| GraphicsTool.VisitFolder | butano/tools/butano_graphics_tool.py:90-128 | the loop over one folder yields VisitNames |
| GraphicsTool.ListGraphicsFileInfos | butano/tools/butano_graphics_tool.py:84-130 | the nested loops yield Discover |
| GraphicsTool.ParseGraphicsType | butano/tools/butano_graphics_tool.py:47-63 | a type is recognised only by its own name, and any other string raises |
| GraphicsTool.ParseTypeName | butano/tools/butano_graphics_tool.py:47-63 | every type is recognised from its name |
| GraphicsTool.ProcessResult | butano/tools/butano_graphics_tool.py:34-65 | an unparsable JSON file and a missing type raise; an unknown type raises UnknownGraphicsType with its name; a known type's result is exactly its item's result |
| GraphicsTool.SpriteItemSteps | butano/tools/butano_graphics_tool.py:46-63 | a sprite's result is the image error, else the build error, else the result of compiling the item |
| GraphicsTool.SpriteTilesItemSteps | butano/tools/butano_graphics_tool.py:48-63 | a sprite tiles item's result is the image error, else the build error, else the result of compiling the item |
| GraphicsTool.SpritePaletteItemSteps | butano/tools/butano_graphics_tool.py:50-63 | a sprite palette's result is the image error, else the build error, else the result of compiling the item |
| GraphicsTool.FixedBgItemSteps | butano/tools/butano_graphics_tool.py:54-63 | a fixed background's result is the image error, else the build error, else the result of compiling the item |
| GraphicsTool.AffineBgItemSteps | butano/tools/butano_graphics_tool.py:56-63 | an affine background's result is the image error, else the build error, else the result of compiling the item |
| GraphicsTool.ProcessOutcome | butano/tools/butano_graphics_tool.py:34-72 | every exception becomes a failure naming the file, and success matches the processing result |
| GraphicsTool.LoadImage | butano/tools/butano_graphics_tool.py:47-63 | decoding follows get_processor |
| GraphicsTool.ProcessItem | butano/tools/butano_graphics_tool.py:47-65 | the dispatch and process() yield the item's result |
| GraphicsTool.ProcessFile | butano/tools/butano_graphics_tool.py:34-72 | the ledger file is written exactly on success, at the file's ledger path |
| GraphicsTool.FileNames | butano/tools/butano_graphics_tool.py:137-138 | one printed name per selected file, in order |
| GraphicsTool.Outcomes | butano/tools/butano_graphics_tool.py:142-144 | one outcome per selected file, in order |
| GraphicsTool.Ledgers | butano/tools/butano_graphics_tool.py:67-70 | a ledger is written for a file exactly when that file succeeded |
| GraphicsTool.ProcessNext | butano/tools/butano_graphics_tool.py:142-144 | one more file processed appends its outcome, and its ledger exactly when it succeeded |
| GraphicsTool.ProcessAll | butano/tools/butano_graphics_tool.py:142-144 | the pool's map yields Outcomes, and the ledgers are those of the successful files |
| GraphicsTool.Successes | butano/tools/butano_graphics_tool.py:148-154 | the successes are the successful outcomes, each of them and nothing else |
| GraphicsTool.Failures | butano/tools/butano_graphics_tool.py:146-156 | the failures are exactly the failed outcomes, and there are none exactly when every file succeeded |
| GraphicsTool.SuccessesAndFailuresPartition | butano/tools/butano_graphics_tool.py:146-156 | successes and failures together count every outcome once |
| GraphicsTool.SuccessTotalOfSuccesses | butano/tools/butano_graphics_tool.py:146-156 | the total size is the sum over the successes alone |
| GraphicsTool.ReportLines | butano/tools/butano_graphics_tool.py:146-166 | success lines come before the others, and the last line is the total exactly when nothing failed |
| GraphicsTool.Lines | butano/tools/butano_graphics_tool.py:148-163 | one report line per outcome, in order |
| GraphicsTool.ReportListsEveryOutcome | butano/tools/butano_graphics_tool.py:146-164 | every processed file has its line in the report |
| GraphicsTool.ExitCode | butano/tools/butano_graphics_tool.py:160-164 | the exit status is -1 exactly when some file failed, else 0 |
| GraphicsTool.RunTool | butano/tools/butano_graphics_tool.py:133-166 | discovery errors propagate, and a successful discovery always completes the run, whatever the files' outcomes; with nothing to rebuild nothing is printed; otherwise the files are announced and the lines and exit code are the report of their outcomes |
| GraphicsTool.RunToolReportsOutcomes | butano/tools/butano_graphics_tool.py:133-166 | a run exits with -1 exactly when processing some discovered file fails, and otherwise closes with the sum of the sizes; an empty run prints nothing |
| GraphicsTool.Report | butano/tools/butano_graphics_tool.py:146-166 | the summing and printing loops yield the report lines and the exit status |
| GraphicsTool.AppendFailureLines | butano/tools/butano_graphics_tool.py:160-163 | one failure line per failure, in order |
| GraphicsTool.ProcessGraphics | butano/tools/butano_graphics_tool.py:133-166 | the run yields RunTool, and the ledgers written are those of the successful files |
| SpriteActions.Next | butano/include/btn_sprite_actions.h:152-171 | a waiting update only decrements the counter; otherwise the counter is reloaded and the index advances by one, wrapping at 65536, and a forever action returns to 0 after the last graphic |
| SpriteActions.NextCountsDown | butano/include/btn_sprite_actions.h:152-171 | one update of a once action that is not done takes exactly one update off what remains, within bounds |
| SpriteActions.IterateCountsDown | butano/include/btn_sprite_actions.h:152-176 | each update of a once action that is not done brings it exactly one update closer to done |
| SpriteActions.NotDoneBefore | butano/include/btn_sprite_actions.h:152-176 | before its remaining updates run out, a once action is not done |
| SpriteActions.DoneAfter | butano/include/btn_sprite_actions.h:152-176 | once its remaining updates have run out, a once action is done |
| SpriteActions.OnceFinishes | butano/include/btn_sprite_actions.h:152-176 | a fresh once action of at most 65535 graphics is done after exactly (size-1)*(wait+1)+1 updates and not before |
| SpriteActions.ForeverNeverDone | butano/include/btn_sprite_actions.h:133-176 | a forever action is never done |
| SpriteActions.SpritePtr.SetTiles | butano/include/btn_sprite_actions.h:163 | set_tiles replaces the tiles and the graphic the sprite shows |
| SpriteActions.SpriteAnimateAction.constructor | butano/include/btn_sprite_actions.h:212-222 | the action starts at graphic 0 with no wait, not done |
| SpriteActions.SpriteAnimateAction.Once | butano/include/btn_sprite_actions.h:120-131 | a fresh, valid once action with the given configuration |
| SpriteActions.SpriteAnimateAction.Forever | butano/include/btn_sprite_actions.h:133-144 | a fresh, valid forever action with the given configuration |
| SpriteActions.SpriteAnimateAction.Reset | butano/include/btn_sprite_actions.h:146-150 | the counters return to the start and the action stays valid |
| SpriteActions.SpriteAnimateAction.Update | butano/include/btn_sprite_actions.h:152-171 | the counters follow Next; the sprite is untouched while waiting and otherwise shows the current graphic; a forever action never becomes done |
| Sram.Copied | butano/hw/src/bn_hw_sram.bn_ewram.cpp:11-23 | the first size bytes come from the source and the rest of the destination is unchanged |
| Sram.Filled | butano/hw/src/bn_hw_sram.bn_ewram.cpp:25-36 | the first size bytes hold the value and the rest is unchanged |
| Sram.CopiedIdempotent | butano/hw/src/bn_hw_sram.bn_ewram.cpp:11-23 | copying twice is copying once |
| Sram.CopiedPrefix | butano/hw/src/bn_hw_sram.bn_ewram.cpp:11-23 | after a copy of the whole source, the destination starts with the source |
| Sram.FilledWhole | butano/hw/src/bn_hw_sram.bn_ewram.cpp:25-36 | a fill of the whole buffer leaves nothing of its previous content |
| Sram.Copy | butano/hw/src/bn_hw_sram.bn_ewram.cpp:11-23 | the byte loop leaves the destination equal to Copied and the source unchanged |
| Sram.Fill | butano/hw/src/bn_hw_sram.bn_ewram.cpp:25-36 | the byte loop leaves the destination equal to Filled |

## Left out

- The `grit` converter is not modelled. A `Codec` oracle returns its report lines, or `None` for a non-zero exit.
- Writing the C++ header text is not modelled. This covers the `replace` calls, the include guard and the `re.sub` that renames grit's symbols. Only the declared values the header would carry are modelled.
- File I/O is not modelled: `remove_file`, the ledger `open(...).close()` and the header writes. The ledgers a run writes are returned as a list of paths.
- Modification times are abstract integers in a `FileSystem` value. `os.listdir` and `os.path.isfile` read that value.
- The `multiprocessing.Pool` is modelled as a sequential map in file order. Processing has no shared state, so the order cannot change any outcome.
- PNG decoding (`png_processor.py`) and `ImageProcessor` are not part of this model. PNG metadata comes from an `Environment` function.
- FixedBg.Build: the 4bpp quantisation of `bpp_4_auto` is a parameter. The model takes the new path and the colour count it yields, not its pixel algorithm.
- `FileInfo.validate`, `RegularBgItem` and `BgPaletteItem` are not part of this model. The first is a parameter; the two item kinds are an `unmodelledItem` oracle.
- `json.load` is not modelled: the descriptor arrives already parsed. The same holds for the `int()`, `str()` and `bool()` conversions of its values.
- Error messages are not modelled as text. Each error is a constructor carrying the offending values.
- Sprite.ShapeAndSize: the text of the valid-sizes message is not modelled. That text omits 64x32, which the code accepts.
- Text.IsSpace: whitespace is the ASCII whitespace `str.split()` splits on (space, tab, line feed, carriage return, vertical tab, form feed and the separators U+001C to U+001F). `str.split()` also splits on non-ASCII spaces such as U+0085 and U+00A0, which the report lines from grit do not contain.
- Text.ParseInt: accepts an optional sign followed by ASCII digits only. Python's `int()` also accepts surrounding whitespace, `_` between digits and non-ASCII decimal digits; words from `str.split()` carry no whitespace, and grit's report uses plain ASCII numbers.
- GritReport.ScanReport: a report without a tile count or without a Total size line is modelled as an error. The Python code fails there too, with an unbound local variable.
- GraphicsTool.RunTool: `exit(-1)` is an exit code. The prints to stdout and stderr are the `RunLog` lines.
- Sprite actions: the `sprite_move_*` actions and the other actions of the header are not modelled. The `sprite_item` overloads of `once`/`forever` are not modelled either.
- SpriteActions.SpritePtr: `set_tiles` is a field assignment on the sprite. The sprite manager behind it is not modelled.
- Sram.Copy: the `volatile` qualifiers are not modelled. Source and destination must be distinct arrays, so overlapping ranges are not modelled.
- SpriteTiles.Build, FixedBg.Build, AffineBg.Build, Items.PaletteItemCheck, Items.CheckPaletteItem: as written, the Python code raises `NameError` at these lines. `butano/tools/sprite_tiles.py:29` calls `SpriteItem.shape_and_size`, but `sprite_tiles.py` never imports `SpriteItem`. `butano/tools/fixed_bg.py:45,49` and `butano/tools/affine_bg.py:38,42` use `string.ascii_lowercase` and `string.digits`, but neither file imports `string`. The model gives the evidently intended behaviour instead: the sprite shape and size table of `sprite.py` for sprite tiles, and the palette-name rule (lower-case letter first, then only `_`, lower-case letters and digits) for the backgrounds' `palette_item`.
- Items.RunGrit: the command is a list of words. The source joins the words with spaces and runs the result through a shell, so a path that contains a space would be split differently; the model does not capture that.
