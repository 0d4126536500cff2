/** The reading of grit's report that every item's __write_header performs:
    each line containing ' tiles ' that has an integer word replaces the
    tile count with its first integer word, so the count kept is the one of
    the last such line before the total; the total size is the last word of
    the first 'Total size:' line. The backgrounds check a tile ceiling on
    every ' tiles ' line. */
module GritReport {
  import opened Common
  import opened Text

  /** Whether an item looks at ' tiles ' lines at all (the palette item does
      not), and the ceiling it checks on the count each time it does. */
  datatype ScanMode = ScanMode(readsTiles: bool, tilesLimit: Option<int>)

  /** The tile count in force at the 'Total size:' line (`None` when no
      ' tiles ' line gave one) and the total size. */
  datatype Scan = Scan(tilesCount: Option<int>, totalSize: int)

  /** The first word that `int()` accepts. */
  function FirstInt(words: seq<string>): (r: Option<int>)
    ensures r.Some? ==> exists k | 0 <= k < |words| :: ParseInt(words[k]) == r &&
                          forall j | 0 <= j < k :: ParseInt(words[j]).None?
    ensures r.None? ==> forall k | 0 <= k < |words| :: ParseInt(words[k]).None?
  {
    if words == [] then None
    else if ParseInt(words[0]).Some? then ParseInt(words[0])
    else
      var r := FirstInt(words[1..]);
      assert forall k | 1 <= k < |words| :: words[k] == words[1..][k - 1];
      if r.Some? then
        ghost var k :| 0 <= k < |words[1..]| && ParseInt(words[1..][k]) == r &&
                       forall j | 0 <= j < k :: ParseInt(words[1..][j]).None?;
        assert ParseInt(words[k + 1]) == r;
        r
      else r
  }

  predicate IsTilesLine(line: string, mode: ScanMode) {
    mode.readsTiles && Contains(line, " tiles ")
  }

  predicate IsTotalLine(line: string) {
    Contains(line, "Total size:")
  }

  /** The tile count after `line`: a ' tiles ' line with an integer word
      replaces it; any other line leaves it as it was. */
  function TilesAfter(line: string, tiles: Option<int>, mode: ScanMode): Option<int> {
    if IsTilesLine(line, mode) && FirstInt(Words(line)).Some? then FirstInt(Words(line)) else tiles
  }

  /** `int(line.split()[-1])` on the 'Total size:' line. */
  function TotalOf(line: string, tiles: Option<int>): Result<Scan> {
    var words := Words(line);
    if words == [] then Err(InvalidTotalSize(""))
    else
      var last := words[|words| - 1];
      match ParseInt(last)
      case None => Err(InvalidTotalSize(last))
      case Some(total) => Ok(Scan(tiles, total))
  }

  /** The integer the last word of a line spells, if any. */
  function LastInt(line: string): Option<int> {
    var words := Words(line);
    if words == [] then None else ParseInt(words[|words| - 1])
  }

  /** The scan from line `i` on, with `tiles` the count read so far. */
  function ScanFrom(lines: seq<string>, i: nat, tiles: Option<int>, mode: ScanMode): Result<Scan>
    requires i <= |lines|
    decreases |lines| - i
  {
    if i == |lines| then Err(MissingTotalSize)
    else
      var line := lines[i];
      var now := TilesAfter(line, tiles, mode);
      if IsTilesLine(line, mode) && mode.tilesLimit.Some? && now.None? then Err(MissingTilesCount)
      else if IsTilesLine(line, mode) && mode.tilesLimit.Some? && now.value > mode.tilesLimit.value then
        Err(TooManyTiles(now.value, mode.tilesLimit.value))
      else if IsTotalLine(line) then TotalOf(line, now)
      else ScanFrom(lines, i + 1, now, mode)
  }

  /** What reading a whole report yields. */
  function ScanReport(lines: seq<string>, mode: ScanMode): Result<Scan> {
    ScanFrom(lines, 0, None, mode)
  }

  /** The inner word loop: `int(word)` on each word until one succeeds. */
  method FirstIntWord(words: seq<string>) returns (r: Option<int>)
    ensures r == FirstInt(words)
  {
    for i := 0 to |words|
      invariant FirstInt(words) == FirstInt(words[i..])
    {
      assert words[i..][1..] == words[i + 1..];
      var n := ParseInt(words[i]);
      if n.Some? {
        return n;
      }
    }
    return None;
  }

  /** The ' tiles ' branch of the report loop: the count after `line`. */
  method ReadTiles(line: string, tiles: Option<int>, mode: ScanMode) returns (now: Option<int>)
    ensures now == TilesAfter(line, tiles, mode)
  {
    now := tiles;
    if mode.readsTiles && Contains(line, " tiles ") {
      var n := FirstIntWord(Words(line));
      if n.Some? {
        now := n;
      }
    }
  }

  /** The 'Total size:' branch of the report loop. */
  method ReadTotal(line: string, tiles: Option<int>) returns (r: Result<Scan>)
    ensures r == TotalOf(line, tiles)
  {
    var words := Words(line);
    if words == [] {
      return Err(InvalidTotalSize(""));
    }
    var total := ParseInt(words[|words| - 1]);
    if total.None? {
      return Err(InvalidTotalSize(words[|words| - 1]));
    }
    return Ok(Scan(tiles, total.value));
  }

  /** The report loop of __write_header: line by line, tracking the tile
      count, checking the ceiling, and stopping at the first 'Total size:'
      line. */
  method ReadReport(lines: seq<string>, mode: ScanMode) returns (r: Result<Scan>)
    ensures r == ScanReport(lines, mode)
  {
    var tiles: Option<int> := None;
    for i := 0 to |lines|
      invariant ScanFrom(lines, i, tiles, mode) == ScanReport(lines, mode)
    {
      var line := lines[i];
      tiles := ReadTiles(line, tiles, mode);
      if IsTilesLine(line, mode) && mode.tilesLimit.Some? {
        if tiles.None? {
          return Err(MissingTilesCount);
        }
        if tiles.value > mode.tilesLimit.value {
          return Err(TooManyTiles(tiles.value, mode.tilesLimit.value));
        }
      }
      if Contains(line, "Total size:") {
        r := ReadTotal(line, tiles);
        return;
      }
    }
    return Err(MissingTotalSize);
  }

  /** The total size comes from the first 'Total size:' line, and from
      nothing after it. */
  lemma {:induction false} ScanStopsAtFirstTotalLine(lines: seq<string>, i: nat, tiles: Option<int>, mode: ScanMode)
    requires i <= |lines|
    requires ScanFrom(lines, i, tiles, mode).Ok?
    ensures exists k | i <= k < |lines| ::
              IsTotalLine(lines[k]) && (forall j | i <= j < k :: !IsTotalLine(lines[j])) &&
              LastInt(lines[k]) == Some(ScanFrom(lines, i, tiles, mode).value.totalSize)
    decreases |lines| - i
  {
    var now := TilesAfter(lines[i], tiles, mode);
    if IsTotalLine(lines[i]) {
      assert LastInt(lines[i]) == Some(ScanFrom(lines, i, tiles, mode).value.totalSize);
    } else {
      ScanStopsAtFirstTotalLine(lines, i + 1, now, mode);
      var k :| i + 1 <= k < |lines| &&
                IsTotalLine(lines[k]) && (forall j | i + 1 <= j < k :: !IsTotalLine(lines[j])) &&
                LastInt(lines[k]) == Some(ScanFrom(lines, i + 1, now, mode).value.totalSize);
      assert forall j | i <= j < k :: !IsTotalLine(lines[j]);
    }
  }

  /** When a ceiling is checked, a count that survives the scan is within it. */
  lemma {:induction false} ScanRespectsTilesLimit(lines: seq<string>, i: nat, tiles: Option<int>, mode: ScanMode)
    requires i <= |lines|
    requires mode.tilesLimit.Some? && (tiles.Some? ==> tiles.value <= mode.tilesLimit.value)
    requires ScanFrom(lines, i, tiles, mode).Ok?
    ensures ScanFrom(lines, i, tiles, mode).value.tilesCount.Some? ==>
              ScanFrom(lines, i, tiles, mode).value.tilesCount.value <= mode.tilesLimit.value
    decreases |lines| - i
  {
    if !IsTotalLine(lines[i]) {
      ScanRespectsTilesLimit(lines, i + 1, TilesAfter(lines[i], tiles, mode), mode);
    }
  }

  /** No line in [i, k) ends the scan: none is a 'Total size:' line, and
      each ' tiles ' line carries a count within the ceiling. */
  predicate ClearBefore(lines: seq<string>, i: nat, k: nat, mode: ScanMode)
    requires k <= |lines|
  {
    mode.tilesLimit.Some? &&
    forall j | i <= j < k ::
      !IsTotalLine(lines[j]) &&
      (IsTilesLine(lines[j], mode) ==>
         FirstInt(Words(lines[j])).Some? && FirstInt(Words(lines[j])).value <= mode.tilesLimit.value)
  }

  /** A ' tiles ' line whose count is above the ceiling. */
  predicate OverCeiling(line: string, mode: ScanMode) {
    mode.tilesLimit.Some? && IsTilesLine(line, mode) &&
    FirstInt(Words(line)).Some? && FirstInt(Words(line)).value > mode.tilesLimit.value
  }

  /** The first ' tiles ' line above the ceiling ends the scan with that
      count as the error. */
  lemma {:induction false} ScanRejectsTooManyTiles(lines: seq<string>, i: nat, tiles: Option<int>, mode: ScanMode,
                                                   k: nat)
    requires i <= k < |lines|
    requires ClearBefore(lines, i, k, mode) && OverCeiling(lines[k], mode)
    ensures ScanFrom(lines, i, tiles, mode) ==
            Err(TooManyTiles(FirstInt(Words(lines[k])).value, mode.tilesLimit.value))
    decreases k - i
  {
    var now := TilesAfter(lines[i], tiles, mode);
    if i < k {
      assert !IsTotalLine(lines[i]);
      assert IsTilesLine(lines[i], mode) ==> now.Some? && now.value <= mode.tilesLimit.value;
      assert ClearBefore(lines, i + 1, k, mode);
      ScanRejectsTooManyTiles(lines, i + 1, now, mode, k);
      assert ScanFrom(lines, i, tiles, mode) == ScanFrom(lines, i + 1, now, mode);
    } else {
      assert now == FirstInt(Words(lines[k]));
    }
  }

  /** The reported tile count is the first integer word of a ' tiles ' line
      (the last one with an integer word before the total);
      an item that does not read ' tiles ' lines never has one. */
  lemma {:induction false} ScanTilesFromTilesLine(lines: seq<string>, i: nat, tiles: Option<int>, mode: ScanMode)
    requires i <= |lines|
    requires ScanFrom(lines, i, tiles, mode).Ok?
    ensures var count := ScanFrom(lines, i, tiles, mode).value.tilesCount;
            count.Some? && count != tiles ==>
              mode.readsTiles &&
              exists k | i <= k < |lines| :: Contains(lines[k], " tiles ") && FirstInt(Words(lines[k])) == count
    ensures !mode.readsTiles ==> ScanFrom(lines, i, tiles, mode).value.tilesCount == tiles
    decreases |lines| - i
  {
    var now := TilesAfter(lines[i], tiles, mode);
    if !IsTotalLine(lines[i]) {
      ScanTilesFromTilesLine(lines, i + 1, now, mode);
    }
  }
}
