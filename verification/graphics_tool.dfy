/** butano_graphics_tool.py: discovery of the graphics files to rebuild,
    the processing of each one, and the summary of the whole run. The file
    system, the JSON parser and the decoders are parameters. */
module GraphicsTool {
  import opened Common
  import opened Text
  import Util
  import Bmp
  import opened Items
  import Sprite
  import SpriteTiles
  import SpritePalette
  import FixedBg
  import AffineBg

  // ---------------------------------------------------------------------
  // Discovery: list_graphics_file_infos
  // ---------------------------------------------------------------------

  /** What the tool sees of the file system: the entries of every folder
      that exists, and every regular file with its modification time. */
  datatype FileSystem = FileSystem(listings: map<string, seq<string>>, files: map<string, int>)

  /** One graphics file to process, with the paths derived from its name. */
  datatype GraphicsFileInfo = GraphicsFileInfo(
    jsonFilePath: string,
    filePath: string,
    fileName: string,
    fileNameNoExt: string,
    fileInfoPath: string)

  /** The index of the last '.' in `s`. */
  function LastDot(s: string): (r: Option<nat>)
    ensures r.Some? ==> r.value < |s| && s[r.value] == '.' && forall i | r.value < i < |s| :: s[i] != '.'
    ensures r.None? ==> forall i | 0 <= i < |s| :: s[i] != '.'
  {
    if s == [] then None
    else if s[|s| - 1] == '.' then Some(|s| - 1)
    else LastDot(s[..|s| - 1])
  }

  /** os.path.splitext on a bare file name: the extension runs from the last
      dot to the end, unless only dots precede that dot (".json" has no
      extension). */
  function SplitExt(name: string): (parts: (string, string))
    ensures parts.0 + parts.1 == name
    ensures parts.1 != [] ==>
              parts.1[0] == '.' && (forall i | 1 <= i < |parts.1| :: parts.1[i] != '.') &&
              exists i | 0 <= i < |parts.0| :: parts.0[i] != '.'
  {
    match LastDot(name)
    case None => (name, "")
    case Some(d) =>
      if exists i | 0 <= i < d :: name[i] != '.' then (name[..d], name[d..]) else (name, "")
  }

  /** A stem that is not all dots and a dotted extension without further
      dots are split apart again. */
  lemma {:induction false} SplitExtOfStemAndExtension(stem: string, extension: string)
    requires exists i | 0 <= i < |stem| :: stem[i] != '.'
    requires |extension| >= 1 && extension[0] == '.' && forall i | 1 <= i < |extension| :: extension[i] != '.'
    ensures SplitExt(stem + extension) == (stem, extension)
  {
    var name := stem + extension;
    var d := |stem|;
    assert forall i | d < i < |name| :: name[i] == extension[i - d];
    LastDotAt(name, d);
    var i :| 0 <= i < |stem| && stem[i] != '.';
    assert name[i] == stem[i];
    assert name[..d] == stem && name[d..] == extension;
  }

  lemma {:induction false} LastDotAt(s: string, d: nat)
    requires d < |s| && s[d] == '.' && forall i | d < i < |s| :: s[i] != '.'
    ensures LastDot(s) == Some(d)
    decreases |s|
  {
    if d < |s| - 1 {
      var prefix := s[..|s| - 1];
      assert forall i | d < i < |prefix| :: prefix[i] == s[i];
      LastDotAt(prefix, d);
    }
  }

  predicate IsImageExtension(extension: string) {
    extension == ".bmp" || extension == ".png"
  }

  function FilePath(folder: string, fileName: string): string {
    folder + "/" + fileName
  }

  function JsonPath(folder: string, stem: string): string {
    folder + "/" + stem + ".json"
  }

  /** The empty ledger file whose time records the last successful build. */
  function LedgerPath(buildFolderPath: string, stem: string): string {
    buildFolderPath + "/_bn_" + stem + "_file_info.txt"
  }

  function ModificationTime(fs: FileSystem, path: string): Option<int> {
    if path in fs.files then Some(fs.files[path]) else None
  }

  /** An item is rebuilt when it has no ledger, or its ledger is older than
      its image or its JSON file. */
  function NeedsBuild(ledger: Option<int>, imageTime: int, jsonTime: int): (build: bool)
    ensures build <==> ledger.None? || ledger.value < imageTime || ledger.value < jsonTime
    ensures ledger.Some? && imageTime <= ledger.value && jsonTime <= ledger.value ==> !build
  {
    match ledger
    case None => true
    case Some(ledgerTime) => if ledgerTime < imageTime then true else ledgerTime < jsonTime
  }

  /** A folder entry the tool considers: a regular file whose name
      FileInfo.validate accepts, with a .bmp or .png extension. */
  predicate IsGraphicsFile(fs: FileSystem, validate: string -> bool, folder: string, fileName: string) {
    FilePath(folder, fileName) in fs.files && validate(fileName) && IsImageExtension(SplitExt(fileName).1)
  }

  /** The record the listing loop builds for `fileName` in `folder`. */
  function InfoOf(buildFolderPath: string, folder: string, fileName: string): GraphicsFileInfo {
    var stem := SplitExt(fileName).0;
    GraphicsFileInfo(JsonPath(folder, stem), FilePath(folder, fileName), fileName, stem,
                     LedgerPath(buildFolderPath, stem))
  }

  /** A graphics file with its JSON file beside it whose ledger is absent,
      or older than the image or the JSON file. */
  predicate IsStale(fs: FileSystem, validate: string -> bool, buildFolderPath: string, folder: string,
                    fileName: string)
  {
    var info := InfoOf(buildFolderPath, folder, fileName);
    IsGraphicsFile(fs, validate, folder, fileName) && info.jsonFilePath in fs.files &&
    NeedsBuild(ModificationTime(fs, info.fileInfoPath), fs.files[info.filePath], fs.files[info.jsonFilePath])
  }

  /** The record of `fileName` if it is stale, and nothing otherwise. */
  function Picked(fs: FileSystem, validate: string -> bool, buildFolderPath: string, folder: string,
                  fileName: string): seq<GraphicsFileInfo>
  {
    if IsStale(fs, validate, buildFolderPath, folder, fileName) then [InfoOf(buildFolderPath, folder, fileName)] else []
  }

  /** The stale files among `names`, in listing order. */
  function StaleFiles(fs: FileSystem, validate: string -> bool, buildFolderPath: string, folder: string,
                      names: seq<string>): seq<GraphicsFileInfo>
    decreases |names|
  {
    if names == [] then []
    else Picked(fs, validate, buildFolderPath, folder, names[0]) + StaleFiles(fs, validate, buildFolderPath, folder, names[1..])
  }

  /** The stale files of every listed folder, folder by folder. */
  function AllStaleFiles(fs: FileSystem, validate: string -> bool, buildFolderPath: string, folders: seq<string>)
    : seq<GraphicsFileInfo>
    decreases |folders|
  {
    if folders == [] then []
    else
      (if folders[0] in fs.listings
       then StaleFiles(fs, validate, buildFolderPath, folders[0], fs.listings[folders[0]]) else []) +
      AllStaleFiles(fs, validate, buildFolderPath, folders[1..])
  }

  /** What the listing loop carries: the stems seen so far and the files
      selected for rebuilding. */
  datatype Discovery = Discovery(seen: set<string>, infos: seq<GraphicsFileInfo>)

  /** A selected file: its paths are the ones derived from its name, it and
      its JSON file exist, and it is stale. */
  predicate Selected(fs: FileSystem, buildFolderPath: string, info: GraphicsFileInfo) {
    SplitExt(info.fileName).0 == info.fileNameNoExt && IsImageExtension(SplitExt(info.fileName).1) &&
    info.fileInfoPath == LedgerPath(buildFolderPath, info.fileNameNoExt) &&
    info.filePath in fs.files && info.jsonFilePath in fs.files &&
    NeedsBuild(ModificationTime(fs, info.fileInfoPath), fs.files[info.filePath], fs.files[info.jsonFilePath])
  }

  /** Every selected file is stale, its stem has been seen, and no stem is
      selected twice. */
  predicate Consistent(fs: FileSystem, buildFolderPath: string, d: Discovery) {
    (forall k | 0 <= k < |d.infos| :: Selected(fs, buildFolderPath, d.infos[k]) && d.infos[k].fileNameNoExt in d.seen) &&
    forall i, j | 0 <= i < j < |d.infos| :: d.infos[i].fileNameNoExt != d.infos[j].fileNameNoExt
  }

  /** One iteration of the inner loop of list_graphics_file_infos. */
  function Visit(fs: FileSystem, validate: string -> bool, buildFolderPath: string, folder: string, fileName: string,
                 d: Discovery): (r: Result<Discovery>)
    ensures r.Ok? ==> d.seen <= r.value.seen
    ensures r.Ok? ==> r.value.infos == d.infos + Picked(fs, validate, buildFolderPath, folder, fileName)
  {
    if !IsGraphicsFile(fs, validate, folder, fileName) then Ok(d)
    else
      var stem := SplitExt(fileName).0;
      if stem in d.seen then Err(DuplicateName(stem))
      else
        var jsonFilePath := JsonPath(folder, stem);
        if jsonFilePath !in fs.files then Err(JsonNotFound(jsonFilePath))
        else
          var filePath := FilePath(folder, fileName);
          var ledger := LedgerPath(buildFolderPath, stem);
          var build := NeedsBuild(ModificationTime(fs, ledger), fs.files[filePath], fs.files[jsonFilePath]);
          var info := GraphicsFileInfo(jsonFilePath, filePath, fileName, stem, ledger);
          Ok(Discovery(d.seen + {stem}, if build then d.infos + [info] else d.infos))
  }

  /** Marking a new stem as seen, and selecting a stale file of that stem,
      keep the discovery consistent. */
  lemma {:induction false} SeenStem(fs: FileSystem, buildFolderPath: string, d: Discovery, stem: string,
                                    info: GraphicsFileInfo)
    ensures Consistent(fs, buildFolderPath, d) && stem !in d.seen ==>
              Consistent(fs, buildFolderPath, Discovery(d.seen + {stem}, d.infos))
    ensures Consistent(fs, buildFolderPath, d) && stem !in d.seen && Selected(fs, buildFolderPath, info) &&
            info.fileNameNoExt == stem ==>
              Consistent(fs, buildFolderPath, Discovery(d.seen + {stem}, d.infos + [info]))
  {
    if Consistent(fs, buildFolderPath, d) && stem !in d.seen {
      var seen := d.seen + {stem};
      if Selected(fs, buildFolderPath, info) && info.fileNameNoExt == stem {
        var infos := d.infos + [info];
        forall k | 0 <= k < |infos|
          ensures Selected(fs, buildFolderPath, infos[k]) && infos[k].fileNameNoExt in seen
        {
          if k < |d.infos| {
            assert infos[k] == d.infos[k];
          }
        }
        forall i, j | 0 <= i < j < |infos|
          ensures infos[i].fileNameNoExt != infos[j].fileNameNoExt
        {
          assert infos[i] == d.infos[i];
          if j < |d.infos| {
            assert infos[j] == d.infos[j];
          } else {
            assert d.infos[i].fileNameNoExt in d.seen;
          }
        }
      }
    }
  }

  /** One entry keeps the discovery consistent: a stale file is selected
      only under a stem not seen before. */
  lemma {:induction false} VisitKeepsConsistent(fs: FileSystem, validate: string -> bool, buildFolderPath: string,
                                                folder: string, fileName: string, d: Discovery)
    ensures var r := Visit(fs, validate, buildFolderPath, folder, fileName, d);
            Consistent(fs, buildFolderPath, d) && r.Ok? ==> Consistent(fs, buildFolderPath, r.value)
  {
    if IsGraphicsFile(fs, validate, folder, fileName) {
      var stem := SplitExt(fileName).0;
      SeenStem(fs, buildFolderPath, d, stem, InfoOf(buildFolderPath, folder, fileName));
    }
  }

  /** The inner loop over the entries of one folder. */
  function VisitNames(fs: FileSystem, validate: string -> bool, buildFolderPath: string, folder: string,
                      names: seq<string>, d: Discovery): (r: Result<Discovery>)
    decreases |names|
  {
    if names == [] then Ok(d)
    else
      var next :- Visit(fs, validate, buildFolderPath, folder, names[0], d);
      VisitNames(fs, validate, buildFolderPath, folder, names[1..], next)
  }

  /** The outer loop over the folders; listing a folder that does not exist
      raises. */
  function VisitFolders(fs: FileSystem, validate: string -> bool, buildFolderPath: string, folders: seq<string>,
                        d: Discovery): (r: Result<Discovery>)
    decreases |folders|
  {
    if folders == [] then Ok(d)
    else if folders[0] !in fs.listings then Err(FolderNotFound(folders[0]))
    else
      var next :- VisitNames(fs, validate, buildFolderPath, folders[0], fs.listings[folders[0]], d);
      VisitFolders(fs, validate, buildFolderPath, folders[1..], next)
  }

  /** The first step of the inner loop: a non-graphics entry is skipped; a
      graphics entry succeeds exactly when its stem is new and its JSON file
      exists, marks its stem as seen and adds its record if it is stale.
      The loop goes on from there, and stops at the first error. */
  lemma {:induction false} VisitNamesStep(fs: FileSystem, validate: string -> bool, buildFolderPath: string,
                                          folder: string, names: seq<string>, d: Discovery)
    returns (ok: bool, next: Discovery)
    requires names != []
    ensures !ok ==> VisitNames(fs, validate, buildFolderPath, folder, names, d).Err?
    ensures ok ==> VisitNames(fs, validate, buildFolderPath, folder, names, d) ==
                   VisitNames(fs, validate, buildFolderPath, folder, names[1..], next)
    ensures ok ==> next.infos == d.infos + Picked(fs, validate, buildFolderPath, folder, names[0])
    ensures !IsGraphicsFile(fs, validate, folder, names[0]) ==> ok && next.seen == d.seen
    ensures IsGraphicsFile(fs, validate, folder, names[0]) ==>
              var stem := SplitExt(names[0]).0;
              (ok <==> stem !in d.seen && JsonPath(folder, stem) in fs.files) &&
              (ok ==> next.seen == d.seen + {stem})
    ensures StaleFiles(fs, validate, buildFolderPath, folder, names) ==
            Picked(fs, validate, buildFolderPath, folder, names[0]) +
            StaleFiles(fs, validate, buildFolderPath, folder, names[1..])
  {
    var visited := Visit(fs, validate, buildFolderPath, folder, names[0], d);
    ok := visited.Ok?;
    next := if visited.Ok? then visited.value else d;
  }

  /** The inner loop adds the stale files of its listing, in order. */
  lemma {:induction false} VisitNamesSelects(fs: FileSystem, validate: string -> bool, buildFolderPath: string,
                                             folder: string, names: seq<string>, d: Discovery)
    ensures var r := VisitNames(fs, validate, buildFolderPath, folder, names, d);
            r.Ok? ==> r.value.infos == d.infos + StaleFiles(fs, validate, buildFolderPath, folder, names)
    decreases |names|
  {
    if names != [] {
      var ok, next := VisitNamesStep(fs, validate, buildFolderPath, folder, names, d);
      if ok {
        var here := Picked(fs, validate, buildFolderPath, folder, names[0]);
        var later := StaleFiles(fs, validate, buildFolderPath, folder, names[1..]);
        VisitNamesSelects(fs, validate, buildFolderPath, folder, names[1..], next);
        ConcatAssoc(d.infos, here, later);
      }
    }
  }

  /** The folder loop adds the stale files of every folder, in order. */
  lemma {:induction false} VisitFoldersSelects(fs: FileSystem, validate: string -> bool, buildFolderPath: string,
                                               folders: seq<string>, d: Discovery)
    ensures var r := VisitFolders(fs, validate, buildFolderPath, folders, d);
            r.Ok? ==> r.value.infos == d.infos + AllStaleFiles(fs, validate, buildFolderPath, folders)
    decreases |folders|
  {
    if folders != [] && folders[0] in fs.listings {
      var folder := folders[0];
      var names := fs.listings[folder];
      VisitNamesSelects(fs, validate, buildFolderPath, folder, names, d);
      var visited := VisitNames(fs, validate, buildFolderPath, folder, names, d);
      if visited.Ok? {
        var here := StaleFiles(fs, validate, buildFolderPath, folder, names);
        var later := AllStaleFiles(fs, validate, buildFolderPath, folders[1..]);
        assert AllStaleFiles(fs, validate, buildFolderPath, folders) == here + later;
        assert VisitFolders(fs, validate, buildFolderPath, folders, d) ==
               VisitFolders(fs, validate, buildFolderPath, folders[1..], visited.value);
        VisitFoldersSelects(fs, validate, buildFolderPath, folders[1..], visited.value);
        ConcatAssoc(d.infos, here, later);
      }
    }
  }

  /** list_graphics_file_infos: the folders are the space-separated fields
      of `paths`. The files returned are exactly the stale files of those
      folders, in listing order, and no two share a stem. */
  function Discover(paths: string, buildFolderPath: string, fs: FileSystem, validate: string -> bool)
    : (r: Result<seq<GraphicsFileInfo>>)
    ensures r.Ok? ==> r.value == AllStaleFiles(fs, validate, buildFolderPath, SplitOn(paths, ' '))
    ensures r.Ok? ==> forall k | 0 <= k < |r.value| :: Selected(fs, buildFolderPath, r.value[k])
    ensures r.Ok? ==> forall i, j | 0 <= i < j < |r.value| :: r.value[i].fileNameNoExt != r.value[j].fileNameNoExt
  {
    var d :- VisitFolders(fs, validate, buildFolderPath, SplitOn(paths, ' '), Discovery({}, []));
    VisitFoldersSelects(fs, validate, buildFolderPath, SplitOn(paths, ' '), Discovery({}, []));
    VisitFoldersKeepsConsistent(fs, validate, buildFolderPath, SplitOn(paths, ' '), Discovery({}, []));
    Ok(d.infos)
  }

  /** The inner loop keeps the discovery consistent. */
  lemma {:induction false} VisitNamesKeepsConsistent(fs: FileSystem, validate: string -> bool,
                                                     buildFolderPath: string, folder: string, names: seq<string>,
                                                     d: Discovery)
    ensures var r := VisitNames(fs, validate, buildFolderPath, folder, names, d);
            Consistent(fs, buildFolderPath, d) && r.Ok? ==> Consistent(fs, buildFolderPath, r.value)
    decreases |names|
  {
    if names != [] {
      VisitKeepsConsistent(fs, validate, buildFolderPath, folder, names[0], d);
      var visited := Visit(fs, validate, buildFolderPath, folder, names[0], d);
      if visited.Ok? {
        VisitNamesKeepsConsistent(fs, validate, buildFolderPath, folder, names[1..], visited.value);
      }
    }
  }

  /** The folder loop keeps the discovery consistent. */
  lemma {:induction false} VisitFoldersKeepsConsistent(fs: FileSystem, validate: string -> bool,
                                                       buildFolderPath: string, folders: seq<string>, d: Discovery)
    ensures var r := VisitFolders(fs, validate, buildFolderPath, folders, d);
            Consistent(fs, buildFolderPath, d) && r.Ok? ==> Consistent(fs, buildFolderPath, r.value)
    decreases |folders|
  {
    if folders != [] && folders[0] in fs.listings {
      var folder := folders[0];
      VisitNamesKeepsConsistent(fs, validate, buildFolderPath, folder, fs.listings[folder], d);
      var visited := VisitNames(fs, validate, buildFolderPath, folder, fs.listings[folder], d);
      if visited.Ok? {
        VisitFoldersKeepsConsistent(fs, validate, buildFolderPath, folders[1..], visited.value);
      }
    }
  }

  /** The stale files of a listing are the records of its stale entries. */
  lemma {:induction false} StaleFilesMembers(fs: FileSystem, validate: string -> bool, buildFolderPath: string,
                                             folder: string, names: seq<string>)
    ensures forall name | name in names && IsStale(fs, validate, buildFolderPath, folder, name) ::
              InfoOf(buildFolderPath, folder, name) in StaleFiles(fs, validate, buildFolderPath, folder, names)
    ensures forall info | info in StaleFiles(fs, validate, buildFolderPath, folder, names) ::
              exists name | name in names :: IsStale(fs, validate, buildFolderPath, folder, name) &&
                                             info == InfoOf(buildFolderPath, folder, name)
    decreases |names|
  {
    if names != [] {
      var rest := names[1..];
      StaleFilesMembers(fs, validate, buildFolderPath, folder, rest);
      assert forall name | name in names :: name == names[0] || name in rest;
      assert forall name | name in rest :: name in names;
    }
  }

  /** The stale files of the folders are the records of the stale entries
      of the listed folders. */
  lemma {:induction false} AllStaleFilesMembers(fs: FileSystem, validate: string -> bool, buildFolderPath: string,
                                                folders: seq<string>)
    ensures forall k, name | 0 <= k < |folders| && folders[k] in fs.listings && name in fs.listings[folders[k]] &&
                             IsStale(fs, validate, buildFolderPath, folders[k], name) ::
              InfoOf(buildFolderPath, folders[k], name) in AllStaleFiles(fs, validate, buildFolderPath, folders)
    ensures forall info | info in AllStaleFiles(fs, validate, buildFolderPath, folders) ::
              exists k, name | 0 <= k < |folders| && folders[k] in fs.listings && name in fs.listings[folders[k]] ::
                IsStale(fs, validate, buildFolderPath, folders[k], name) &&
                info == InfoOf(buildFolderPath, folders[k], name)
    decreases |folders|
  {
    if folders != [] {
      var rest := folders[1..];
      AllStaleFilesMembers(fs, validate, buildFolderPath, rest);
      var here := if folders[0] in fs.listings
                  then StaleFiles(fs, validate, buildFolderPath, folders[0], fs.listings[folders[0]]) else [];
      var later := AllStaleFiles(fs, validate, buildFolderPath, rest);
      assert AllStaleFiles(fs, validate, buildFolderPath, folders) == here + later;
      if folders[0] in fs.listings {
        StaleFilesMembers(fs, validate, buildFolderPath, folders[0], fs.listings[folders[0]]);
      }
      forall k, name | 0 <= k < |folders| && folders[k] in fs.listings && name in fs.listings[folders[k]] &&
                       IsStale(fs, validate, buildFolderPath, folders[k], name)
        ensures InfoOf(buildFolderPath, folders[k], name) in here + later
      {
        if k > 0 {
          assert folders[k] == rest[k - 1];
        }
      }
      forall info | info in here + later
        ensures exists k, name | 0 <= k < |folders| && folders[k] in fs.listings && name in fs.listings[folders[k]] ::
                  IsStale(fs, validate, buildFolderPath, folders[k], name) &&
                  info == InfoOf(buildFolderPath, folders[k], name)
      {
        if info in here {
          var name :| name in fs.listings[folders[0]] && IsStale(fs, validate, buildFolderPath, folders[0], name) &&
                      info == InfoOf(buildFolderPath, folders[0], name);
          assert 0 < |folders|;
        } else {
          var k, name :| 0 <= k < |rest| && rest[k] in fs.listings && name in fs.listings[rest[k]] &&
                         IsStale(fs, validate, buildFolderPath, rest[k], name) &&
                         info == InfoOf(buildFolderPath, rest[k], name);
          assert folders[k + 1] == rest[k];
        }
      }
    }
  }

  /** list_graphics_file_infos returns a file exactly when it is a stale
      graphics file of one of the listed folders: nothing stale is missed
      and nothing else is returned. */
  lemma {:induction false} DiscoverFindsStaleFiles(paths: string, buildFolderPath: string, fs: FileSystem,
                                                   validate: string -> bool)
    ensures var r := Discover(paths, buildFolderPath, fs, validate);
            var folders := SplitOn(paths, ' ');
            r.Ok? ==>
              forall k, name | 0 <= k < |folders| && folders[k] in fs.listings && name in fs.listings[folders[k]] &&
                               IsStale(fs, validate, buildFolderPath, folders[k], name) ::
                InfoOf(buildFolderPath, folders[k], name) in r.value
    ensures var r := Discover(paths, buildFolderPath, fs, validate);
            var folders := SplitOn(paths, ' ');
            r.Ok? ==>
              forall info | info in r.value ::
                exists k, name | 0 <= k < |folders| && folders[k] in fs.listings && name in fs.listings[folders[k]] ::
                  IsStale(fs, validate, buildFolderPath, folders[k], name) &&
                  info == InfoOf(buildFolderPath, folders[k], name)
  {
    var folders := SplitOn(paths, ' ');
    var r := Discover(paths, buildFolderPath, fs, validate);
    if r.Ok? {
      var all := AllStaleFiles(fs, validate, buildFolderPath, folders);
      assert r.value == all;
      AllStaleFilesMembers(fs, validate, buildFolderPath, folders);
    }
  }

  /** The stems of the graphics files among `names`, in listing order. */
  function Stems(fs: FileSystem, validate: string -> bool, folder: string, names: seq<string>): (stems: seq<string>)
    decreases |names|
  {
    if names == [] then []
    else
      (if IsGraphicsFile(fs, validate, folder, names[0]) then [SplitExt(names[0]).0] else []) +
      Stems(fs, validate, folder, names[1..])
  }

  /** Every graphics file among `names` has its JSON file beside it. */
  predicate JsonsPresent(fs: FileSystem, validate: string -> bool, folder: string, names: seq<string>) {
    forall k | 0 <= k < |names| && IsGraphicsFile(fs, validate, folder, names[k]) ::
      JsonPath(folder, SplitExt(names[k]).0) in fs.files
  }

  /** The stems of the graphics files of all the folders, in order. */
  function AllStems(fs: FileSystem, validate: string -> bool, folders: seq<string>): seq<string>
    decreases |folders|
  {
    if folders == [] then []
    else
      (if folders[0] in fs.listings then Stems(fs, validate, folders[0], fs.listings[folders[0]]) else []) +
      AllStems(fs, validate, folders[1..])
  }

  /** Every folder exists and every graphics file in it has a JSON file. */
  predicate Listable(fs: FileSystem, validate: string -> bool, folders: seq<string>) {
    forall k | 0 <= k < |folders| ::
      folders[k] in fs.listings && JsonsPresent(fs, validate, folders[k], fs.listings[folders[k]])
  }

  predicate Distinct(s: seq<string>) {
    forall i, j | 0 <= i < j < |s| :: s[i] != s[j]
  }

  predicate Disjoint(s: seq<string>, seen: set<string>) {
    forall k | 0 <= k < |s| :: s[k] !in seen
  }

  lemma {:induction false} DistinctConcat(a: seq<string>, b: seq<string>)
    ensures Distinct(a + b) <==> Distinct(a) && Distinct(b) && Disjoint(b, set x | x in a)
  {
    var ab := a + b;
    if Distinct(a) && Distinct(b) && Disjoint(b, set x | x in a) {
      forall i, j | 0 <= i < j < |ab|
        ensures ab[i] != ab[j]
      {
        if j >= |a| && i < |a| {
          assert ab[i] in a;
          assert b[j - |a|] !in (set x | x in a);
        } else if i >= |a| {
          assert ab[i] == b[i - |a|] && ab[j] == b[j - |a|];
        }
      }
    }
    if Distinct(ab) {
      assert forall i, j | 0 <= i < j < |a| :: a[i] == ab[i] && a[j] == ab[j];
      assert forall i, j | 0 <= i < j < |b| :: b[i] == ab[|a| + i] && b[j] == ab[|a| + j];
      forall k | 0 <= k < |b|
        ensures b[k] !in (set x | x in a)
      {
        forall i | 0 <= i < |a|
          ensures a[i] != b[k]
        {
          assert ab[i] != ab[|a| + k];
        }
      }
    }
  }

  lemma DisjointConcat(a: seq<string>, b: seq<string>, seen: set<string>)
    ensures Disjoint(a + b, seen) <==> Disjoint(a, seen) && Disjoint(b, seen)
  {
    assert forall k | 0 <= k < |a| :: a[k] == (a + b)[k];
    assert forall k | 0 <= k < |b| :: b[k] == (a + b)[|a| + k];
  }

  /** The JSON files of a listing are present exactly when the first
      entry's is (if it is a graphics file) and the rest's are. */
  lemma {:induction false} JsonsPresentCons(fs: FileSystem, validate: string -> bool, folder: string, names: seq<string>)
    requires names != []
    ensures JsonsPresent(fs, validate, folder, names) <==>
            (IsGraphicsFile(fs, validate, folder, names[0]) ==> JsonPath(folder, SplitExt(names[0]).0) in fs.files) &&
            JsonsPresent(fs, validate, folder, names[1..])
  {
    assert forall k | 1 <= k < |names| :: names[k] == names[1..][k - 1];
  }

  /** The set of the stems of a listing headed by `stem`. */
  lemma {:induction false} StemsOfCons(stem: string, tail: seq<string>)
    ensures (set x | x in [stem] + tail) == {stem} + set x | x in tail
    ensures (set x | x in [stem]) == {stem}
  {
    assert forall x :: x in [stem] + tail <==> x == stem || x in tail;
  }

  /** A stem heading a listing: the listing is distinct and unseen exactly
      when the stem is unseen and the rest is distinct and unseen once the
      stem counts as seen. */
  lemma {:induction false} DistinctUnseenCons(stem: string, tail: seq<string>, seen: set<string>)
    ensures Distinct([stem] + tail) && Disjoint([stem] + tail, seen) <==>
            stem !in seen && Distinct(tail) && Disjoint(tail, seen + {stem})
  {
    DistinctConcat([stem], tail);
    StemsOfCons(stem, tail);
    var s := [stem] + tail;
    assert s[0] == stem;
    assert forall k | 0 <= k < |tail| :: s[k + 1] == tail[k];
  }

  /** One folder's loop succeeds exactly when its stems are distinct, none
      was seen in an earlier folder, and every JSON file is present. */
  lemma {:induction false} VisitNamesSucceeds(fs: FileSystem, validate: string -> bool, buildFolderPath: string,
                                              folder: string, names: seq<string>, d: Discovery)
    ensures var stems := Stems(fs, validate, folder, names);
            VisitNames(fs, validate, buildFolderPath, folder, names, d).Ok? <==>
              Distinct(stems) && Disjoint(stems, d.seen) && JsonsPresent(fs, validate, folder, names)
    decreases |names|
  {
    if names != [] {
      var name, rest := names[0], names[1..];
      var stems := Stems(fs, validate, folder, names);
      var tail := Stems(fs, validate, folder, rest);
      JsonsPresentCons(fs, validate, folder, names);
      var ok, next := VisitNamesStep(fs, validate, buildFolderPath, folder, names, d);
      if !IsGraphicsFile(fs, validate, folder, name) {
        assert stems == tail;
        VisitNamesSucceeds(fs, validate, buildFolderPath, folder, rest, next);
      } else {
        var stem := SplitExt(name).0;
        assert stems == [stem] + tail;
        DistinctUnseenCons(stem, tail, d.seen);
        if ok {
          VisitNamesSucceeds(fs, validate, buildFolderPath, folder, rest, next);
        }
      }
    }
  }

  /** A successful folder loop has seen exactly the stems of its listing
      besides those seen before. */
  lemma {:induction false} VisitNamesSeen(fs: FileSystem, validate: string -> bool, buildFolderPath: string,
                                          folder: string, names: seq<string>, d: Discovery)
    ensures var r := VisitNames(fs, validate, buildFolderPath, folder, names, d);
            r.Ok? ==> r.value.seen == d.seen + set x | x in Stems(fs, validate, folder, names)
    decreases |names|
  {
    if names != [] {
      var name, rest := names[0], names[1..];
      var tail := Stems(fs, validate, folder, rest);
      var ok, next := VisitNamesStep(fs, validate, buildFolderPath, folder, names, d);
      if ok {
        VisitNamesSeen(fs, validate, buildFolderPath, folder, rest, next);
        if IsGraphicsFile(fs, validate, folder, name) {
          var stem := SplitExt(name).0;
          assert Stems(fs, validate, folder, names) == [stem] + tail;
          StemsOfCons(stem, tail);
        } else {
          assert Stems(fs, validate, folder, names) == tail;
        }
      }
    }
  }

  /** The folder loop succeeds exactly when every folder is listable, no
      stem occurs twice across all folders, and none was seen before. */
  lemma {:induction false} VisitFoldersSucceeds(fs: FileSystem, validate: string -> bool, buildFolderPath: string,
                                                folders: seq<string>, d: Discovery)
    ensures var stems := AllStems(fs, validate, folders);
            VisitFolders(fs, validate, buildFolderPath, folders, d).Ok? <==>
              Listable(fs, validate, folders) && Distinct(stems) && Disjoint(stems, d.seen)
    decreases |folders|
  {
    if folders != [] {
      var folder, rest := folders[0], folders[1..];
      assert Listable(fs, validate, folders) <==>
             folder in fs.listings && JsonsPresent(fs, validate, folder, fs.listings[folder]) &&
             Listable(fs, validate, rest) by {
        assert forall k | 1 <= k < |folders| :: folders[k] == rest[k - 1];
      }
      if folder in fs.listings {
        var names := fs.listings[folder];
        var here := Stems(fs, validate, folder, names);
        var later := AllStems(fs, validate, rest);
        assert AllStems(fs, validate, folders) == here + later;
        DistinctConcat(here, later);
        DisjointConcat(here, later, d.seen);
        VisitNamesSucceeds(fs, validate, buildFolderPath, folder, names, d);
        VisitNamesSeen(fs, validate, buildFolderPath, folder, names, d);
        var visited := VisitNames(fs, validate, buildFolderPath, folder, names, d);
        if visited.Ok? {
          VisitFoldersSucceeds(fs, validate, buildFolderPath, rest, visited.value);
        }
      }
    }
  }

  /** Discovery succeeds exactly when every folder exists, every graphics
      file has its JSON file, and no stem occurs twice across all folders;
      a duplicate therefore stops the run before anything is processed. */
  lemma {:induction false} DiscoverSucceedsIff(paths: string, buildFolderPath: string, fs: FileSystem,
                                               validate: string -> bool)
    ensures var folders := SplitOn(paths, ' ');
            Discover(paths, buildFolderPath, fs, validate).Ok? <==>
              Listable(fs, validate, folders) && Distinct(AllStems(fs, validate, folders))
  {
    VisitFoldersSucceeds(fs, validate, buildFolderPath, SplitOn(paths, ' '), Discovery({}, []));
  }

  /** The body of the inner loop, statement by statement. */
  method VisitFile(fs: FileSystem, validate: string -> bool, buildFolderPath: string, folder: string,
                   fileName: string, d: Discovery) returns (r: Result<Discovery>)
    ensures r == Visit(fs, validate, buildFolderPath, folder, fileName, d)
  {
    var filePath := FilePath(folder, fileName);
    if !(filePath in fs.files && validate(fileName)) {
      return Ok(d);
    }
    var parts := SplitExt(fileName);
    var stem, extension := parts.0, parts.1;
    if extension != ".bmp" && extension != ".png" {
      return Ok(d);
    }
    if stem in d.seen {
      return Err(DuplicateName(stem));
    }
    var seen := d.seen + {stem};
    var jsonFilePath := JsonPath(folder, stem);
    if jsonFilePath !in fs.files {
      return Err(JsonNotFound(jsonFilePath));
    }
    var ledger := LedgerPath(buildFolderPath, stem);
    var build: bool;
    if ledger !in fs.files {
      build := true;
    } else {
      var ledgerTime := fs.files[ledger];
      var imageTime := fs.files[filePath];
      if ledgerTime < imageTime {
        build := true;
      } else {
        var jsonTime := fs.files[jsonFilePath];
        build := ledgerTime < jsonTime;
      }
    }
    var infos := d.infos;
    if build {
      infos := infos + [GraphicsFileInfo(jsonFilePath, filePath, fileName, stem, ledger)];
    }
    return Ok(Discovery(seen, infos));
  }

  /** The inner loop over one folder's entries. */
  method VisitFolder(fs: FileSystem, validate: string -> bool, buildFolderPath: string, folder: string,
                     names: seq<string>, d: Discovery) returns (r: Result<Discovery>)
    ensures r == VisitNames(fs, validate, buildFolderPath, folder, names, d)
  {
    var current := d;
    for j := 0 to |names|
      invariant VisitNames(fs, validate, buildFolderPath, folder, names[j..], current) ==
                VisitNames(fs, validate, buildFolderPath, folder, names, d)
    {
      assert names[j..][1..] == names[j + 1..];
      var visited := VisitFile(fs, validate, buildFolderPath, folder, names[j], current);
      if visited.Err? {
        return Err(visited.error);
      }
      current := visited.value;
    }
    assert names[|names|..] == [];
    return Ok(current);
  }

  /** list_graphics_file_infos, loop by loop. */
  method ListGraphicsFileInfos(paths: string, buildFolderPath: string, fs: FileSystem, validate: string -> bool)
    returns (r: Result<seq<GraphicsFileInfo>>)
    ensures r == Discover(paths, buildFolderPath, fs, validate)
  {
    var folders := SplitOn(paths, ' ');
    var d := Discovery({}, []);
    for i := 0 to |folders|
      invariant VisitFolders(fs, validate, buildFolderPath, folders[i..], d) ==
                VisitFolders(fs, validate, buildFolderPath, folders, Discovery({}, []))
    {
      assert folders[i..][1..] == folders[i + 1..];
      if folders[i] !in fs.listings {
        return Err(FolderNotFound(folders[i]));
      }
      var visited := VisitFolder(fs, validate, buildFolderPath, folders[i], fs.listings[folders[i]], d);
      if visited.Err? {
        return Err(visited.error);
      }
      d := visited.value;
    }
    assert folders[|folders|..] == [];
    return Ok(d.infos);
  }

  // ---------------------------------------------------------------------
  // Processing one file: GraphicsFileInfo.process
  // ---------------------------------------------------------------------

  /** The seven graphics types a descriptor may name. */
  datatype GraphicsType =
    | SpriteType | SpriteTilesType | SpritePaletteType | RegularBgType | FixedBgType | AffineBgType | BgPaletteType

  function TypeName(t: GraphicsType): string {
    match t
    case SpriteType => "sprite"
    case SpriteTilesType => "sprite_tiles"
    case SpritePaletteType => "sprite_palette"
    case RegularBgType => "regular_bg"
    case FixedBgType => "fixed_bg"
    case AffineBgType => "affine_bg"
    case BgPaletteType => "bg_palette"
  }

  /** The dispatch on the 'type' string: a known name selects its type, any
      other string raises. */
  function ParseGraphicsType(name: string): (r: Result<GraphicsType>)
    ensures r.Ok? ==> TypeName(r.value) == name
    ensures r.Err? ==> r == Err(UnknownGraphicsType(name)) && forall t: GraphicsType :: TypeName(t) != name
  {
    if name == "sprite" then Ok(SpriteType)
    else if name == "sprite_tiles" then Ok(SpriteTilesType)
    else if name == "sprite_palette" then Ok(SpritePaletteType)
    else if name == "regular_bg" then Ok(RegularBgType)
    else if name == "fixed_bg" then Ok(FixedBgType)
    else if name == "affine_bg" then Ok(AffineBgType)
    else if name == "bg_palette" then Ok(BgPaletteType)
    else Err(UnknownGraphicsType(name))
  }

  /** Every type is recognised by its own name. */
  lemma {:induction false} ParseTypeName(t: GraphicsType)
    ensures ParseGraphicsType(TypeName(t)) == Ok(t)
  {
    match t
    case SpriteType =>
    case SpriteTilesType =>
    case SpritePaletteType =>
      assert TypeName(t)[7] != "sprite_tiles"[7];
    case RegularBgType =>
    case FixedBgType =>
    case AffineBgType =>
    case BgPaletteType =>
  }

  /** What an item's process() returns: the total size and the header path. */
  datatype Processed = Processed(totalSize: int, headerPath: string)

  /** What processing needs from outside the model: the JSON parser (None
      when a file cannot be parsed), file contents for the BMP decoder, the
      PNG processor, the grit backend, the quantizer, and the two item kinds
      whose modules are not part of this model. */
  datatype Environment = Environment(
    json: string -> Option<Descriptor>,
    bytes: string -> seq<Bmp.Byte>,
    png: string -> Result<Util.ImageInfo>,
    codec: Codec,
    quantize: string -> int,
    unmodelledItem: (GraphicsType, GraphicsFileInfo, string, Descriptor) -> Result<Processed>)

  /** get_processor and the decoder's metadata. */
  function ImageOf(env: Environment, path: string): Result<Util.ImageInfo> {
    match Util.ProcessorFor(path)
    case Png => env.png(path)
    case Bmp => Bmp.Decode(env.bytes(path))
  }

  function Done<D>(output: Output<D>): Processed {
    Processed(output.totalSize, output.headerPath)
  }

  /** A compiled item as the pool sees it: its size and header, or its
      error. */
  function Finished<D>(output: Result<Output<D>>): Result<Processed> {
    match output
    case Ok(o) => Ok(Done(o))
    case Err(e) => Err(e)
  }

  /** The item constructor and process() of each type. */
  function ItemResult(t: GraphicsType, info: GraphicsFileInfo, buildFolderPath: string, desc: Descriptor,
                      env: Environment): Result<Processed>
  {
    match t
    case SpriteType =>
      var image :- ImageOf(env, info.filePath);
      var item :- Sprite.Build(info.filePath, info.fileNameNoExt, buildFolderPath, image, desc);
      var output :- Sprite.Compile(item, env.codec);
      Ok(Done(output))
    case SpriteTilesType =>
      var image :- ImageOf(env, info.filePath);
      var item :- SpriteTiles.Build(info.filePath, info.fileNameNoExt, buildFolderPath, image, desc);
      var output :- SpriteTiles.Compile(item, env.codec);
      Ok(Done(output))
    case SpritePaletteType =>
      var image :- ImageOf(env, info.filePath);
      var item :- SpritePalette.Build(info.filePath, info.fileNameNoExt, buildFolderPath, image, desc);
      var output :- SpritePalette.Compile(item, env.codec);
      Ok(Done(output))
    case FixedBgType =>
      var image :- ImageOf(env, info.filePath);
      var item :- FixedBg.Build(info.filePath, info.fileNameNoExt, buildFolderPath, image, desc, env.quantize);
      var output :- FixedBg.Compile(item, env.codec);
      Ok(Done(output))
    case AffineBgType =>
      var image :- ImageOf(env, info.filePath);
      var item :- AffineBg.Build(info.filePath, info.fileNameNoExt, buildFolderPath, image, desc);
      var output :- AffineBg.Compile(item, env.codec);
      Ok(Done(output))
    case RegularBgType => env.unmodelledItem(t, info, buildFolderPath, desc)
    case BgPaletteType => env.unmodelledItem(t, info, buildFolderPath, desc)
  }

  /** Processing a sprite decodes the image, builds the item and compiles
      it; the first step that fails gives the error. */
  lemma SpriteItemSteps(info: GraphicsFileInfo, buildFolderPath: string, desc: Descriptor, env: Environment)
    ensures var r := ItemResult(SpriteType, info, buildFolderPath, desc, env);
            var image := ImageOf(env, info.filePath);
            (image.Err? ==> r == Err(image.error)) &&
            (image.Ok? ==>
               var item := Sprite.Build(info.filePath, info.fileNameNoExt, buildFolderPath, image.value, desc);
               (item.Err? ==> r == Err(item.error)) &&
               (item.Ok? ==> r == Finished(Sprite.Compile(item.value, env.codec))))
  {
  }

  /** Processing sprite tiles decodes the image, builds the item and compiles
      it; the first step that fails gives the error. */
  lemma SpriteTilesItemSteps(info: GraphicsFileInfo, buildFolderPath: string, desc: Descriptor, env: Environment)
    ensures var r := ItemResult(SpriteTilesType, info, buildFolderPath, desc, env);
            var image := ImageOf(env, info.filePath);
            (image.Err? ==> r == Err(image.error)) &&
            (image.Ok? ==>
               var item := SpriteTiles.Build(info.filePath, info.fileNameNoExt, buildFolderPath, image.value, desc);
               (item.Err? ==> r == Err(item.error)) &&
               (item.Ok? ==> r == Finished(SpriteTiles.Compile(item.value, env.codec))))
  {
  }

  /** Processing a sprite palette decodes the image, builds the item and compiles
      it; the first step that fails gives the error. */
  lemma SpritePaletteItemSteps(info: GraphicsFileInfo, buildFolderPath: string, desc: Descriptor, env: Environment)
    ensures var r := ItemResult(SpritePaletteType, info, buildFolderPath, desc, env);
            var image := ImageOf(env, info.filePath);
            (image.Err? ==> r == Err(image.error)) &&
            (image.Ok? ==>
               var item := SpritePalette.Build(info.filePath, info.fileNameNoExt, buildFolderPath, image.value, desc);
               (item.Err? ==> r == Err(item.error)) &&
               (item.Ok? ==> r == Finished(SpritePalette.Compile(item.value, env.codec))))
  {
  }

  /** Processing a fixed background decodes the image, builds the item and compiles
      it; the first step that fails gives the error. */
  lemma FixedBgItemSteps(info: GraphicsFileInfo, buildFolderPath: string, desc: Descriptor, env: Environment)
    ensures var r := ItemResult(FixedBgType, info, buildFolderPath, desc, env);
            var image := ImageOf(env, info.filePath);
            (image.Err? ==> r == Err(image.error)) &&
            (image.Ok? ==>
               var item := FixedBg.Build(info.filePath, info.fileNameNoExt, buildFolderPath, image.value, desc, env.quantize);
               (item.Err? ==> r == Err(item.error)) &&
               (item.Ok? ==> r == Finished(FixedBg.Compile(item.value, env.codec))))
  {
  }

  /** Processing an affine background decodes the image, builds the item and compiles
      it; the first step that fails gives the error. */
  lemma AffineBgItemSteps(info: GraphicsFileInfo, buildFolderPath: string, desc: Descriptor, env: Environment)
    ensures var r := ItemResult(AffineBgType, info, buildFolderPath, desc, env);
            var image := ImageOf(env, info.filePath);
            (image.Err? ==> r == Err(image.error)) &&
            (image.Ok? ==>
               var item := AffineBg.Build(info.filePath, info.fileNameNoExt, buildFolderPath, image.value, desc);
               (item.Err? ==> r == Err(item.error)) &&
               (item.Ok? ==> r == Finished(AffineBg.Compile(item.value, env.codec))))
  {
  }

  /** The body of the outer try of GraphicsFileInfo.process: parse the JSON
      file, read its 'type', dispatch, and process the item. */
  function ProcessResult(info: GraphicsFileInfo, buildFolderPath: string, env: Environment): (r: Result<Processed>)
    ensures env.json(info.jsonFilePath).None? ==> r == Err(JsonParseFailed(info.jsonFilePath))
    ensures env.json(info.jsonFilePath).Some? && env.json(info.jsonFilePath).value.graphicsType.None? ==>
              r == Err(MissingGraphicsType(info.jsonFilePath))
    ensures r.Ok? ==>
              var desc := env.json(info.jsonFilePath);
              desc.Some? && desc.value.graphicsType.Some? &&
              exists t: GraphicsType :: TypeName(t) == desc.value.graphicsType.value &&
                                        r == ItemResult(t, info, buildFolderPath, desc.value, env)
    ensures var desc := env.json(info.jsonFilePath);
            desc.Some? && desc.value.graphicsType.Some? ==>
              var t := ParseGraphicsType(desc.value.graphicsType.value);
              (t.Err? ==> r == Err(UnknownGraphicsType(desc.value.graphicsType.value))) &&
              (t.Ok? ==> r == ItemResult(t.value, info, buildFolderPath, desc.value, env))
  {
    var desc :- match env.json(info.jsonFilePath)
                case None => Err(JsonParseFailed(info.jsonFilePath))
                case Some(desc) => Ok(desc);
    if desc.graphicsType.None? then Err(MissingGraphicsType(info.jsonFilePath))
    else
      var t :- ParseGraphicsType(desc.graphicsType.value);
      ItemResult(t, info, buildFolderPath, desc, env)
  }

  /** What process() returns to the pool: the three-element success list or
      the two-element failure list. */
  datatype Outcome =
    | Success(fileName: string, headerPath: string, totalSize: int)
    | Failure(fileName: string, error: Error)

  /** GraphicsFileInfo.process: every exception becomes a failure naming
      the file. */
  function ProcessOutcome(info: GraphicsFileInfo, buildFolderPath: string, env: Environment): (o: Outcome)
    ensures o.fileName == info.fileName
    ensures o.Success? <==> ProcessResult(info, buildFolderPath, env).Ok?
    ensures o.Failure? ==> o.error == ProcessResult(info, buildFolderPath, env).error
  {
    match ProcessResult(info, buildFolderPath, env)
    case Ok(p) => Success(info.fileName, p.headerPath, p.totalSize)
    case Err(e) => Failure(info.fileName, e)
  }

  /** get_processor followed by the decoder. */
  method LoadImage(env: Environment, path: string) returns (r: Result<Util.ImageInfo>)
    ensures r == ImageOf(env, path)
  {
    if Util.ProcessorFor(path) == Util.Png {
      r := env.png(path);
    } else {
      r := Bmp.Load(env.bytes(path));
    }
  }

  /** The if/elif dispatch followed by item.process(). */
  method ProcessItem(t: GraphicsType, info: GraphicsFileInfo, buildFolderPath: string, desc: Descriptor,
                     env: Environment) returns (r: Result<Processed>)
    ensures r == ItemResult(t, info, buildFolderPath, desc, env)
  {
    if t == RegularBgType || t == BgPaletteType {
      return env.unmodelledItem(t, info, buildFolderPath, desc);
    }
    var image := LoadImage(env, info.filePath);
    if image.Err? {
      return Err(image.error);
    }
    match t
    case SpriteType =>
      var item := Sprite.Build(info.filePath, info.fileNameNoExt, buildFolderPath, image.value, desc);
      if item.Err? {
        return Err(item.error);
      }
      var output := Sprite.Process(item.value, env.codec);
      if output.Err? {
        return Err(output.error);
      }
      return Ok(Done(output.value));
    case SpriteTilesType =>
      var item := SpriteTiles.Build(info.filePath, info.fileNameNoExt, buildFolderPath, image.value, desc);
      if item.Err? {
        return Err(item.error);
      }
      var output := SpriteTiles.Process(item.value, env.codec);
      if output.Err? {
        return Err(output.error);
      }
      return Ok(Done(output.value));
    case SpritePaletteType =>
      var item := SpritePalette.Build(info.filePath, info.fileNameNoExt, buildFolderPath, image.value, desc);
      if item.Err? {
        return Err(item.error);
      }
      var output := SpritePalette.Process(item.value, env.codec);
      if output.Err? {
        return Err(output.error);
      }
      return Ok(Done(output.value));
    case FixedBgType =>
      var item := FixedBg.New(info.filePath, info.fileNameNoExt, buildFolderPath, image.value, desc, env.quantize);
      if item.Err? {
        return Err(item.error);
      }
      var output := FixedBg.Process(item.value, env.codec);
      if output.Err? {
        return Err(output.error);
      }
      return Ok(Done(output.value));
    case AffineBgType =>
      var item := AffineBg.New(info.filePath, info.fileNameNoExt, buildFolderPath, image.value, desc);
      if item.Err? {
        return Err(item.error);
      }
      var output := AffineBg.Process(item.value, env.codec);
      if output.Err? {
        return Err(output.error);
      }
      return Ok(Done(output.value));
  }

  /** GraphicsFileInfo.process with its side effect: the ledger file it
      writes, which it writes only once the item has been processed. */
  method ProcessFile(info: GraphicsFileInfo, buildFolderPath: string, env: Environment)
    returns (outcome: Outcome, ledger: Option<string>)
    ensures outcome == ProcessOutcome(info, buildFolderPath, env)
    ensures ledger.Some? <==> outcome.Success?
    ensures ledger.Some? ==> ledger.value == info.fileInfoPath
  {
    var parsed := env.json(info.jsonFilePath);
    if parsed.None? {
      return Failure(info.fileName, JsonParseFailed(info.jsonFilePath)), None;
    }
    var desc := parsed.value;
    if desc.graphicsType.None? {
      return Failure(info.fileName, MissingGraphicsType(info.jsonFilePath)), None;
    }
    var t := ParseGraphicsType(desc.graphicsType.value);
    if t.Err? {
      return Failure(info.fileName, t.error), None;
    }
    var processed := ProcessItem(t.value, info, buildFolderPath, desc, env);
    if processed.Err? {
      return Failure(info.fileName, processed.error), None;
    }
    return Success(info.fileName, processed.value.headerPath, processed.value.totalSize), Some(info.fileInfoPath);
  }

  // ---------------------------------------------------------------------
  // The whole run: process_graphics
  // ---------------------------------------------------------------------

  /** The pool's map over the selected files, in order. */
  function Outcomes(infos: seq<GraphicsFileInfo>, buildFolderPath: string, env: Environment): (outcomes: seq<Outcome>)
    ensures |outcomes| == |infos|
    ensures forall k | 0 <= k < |infos| :: outcomes[k] == ProcessOutcome(infos[k], buildFolderPath, env)
  {
    Map(info => ProcessOutcome(info, buildFolderPath, env), infos)
  }

  /** The ledger files the run writes: one for each file processed
      successfully, and no other. */
  function Ledgers(infos: seq<GraphicsFileInfo>, outcomes: seq<Outcome>): (ledgers: seq<string>)
    requires |infos| == |outcomes|
    ensures forall p :: p in ledgers <==> exists k | 0 <= k < |infos| :: outcomes[k].Success? && infos[k].fileInfoPath == p
  {
    if infos == [] then []
    else
      var n := |infos| - 1;
      var earlier := Ledgers(infos[..n], outcomes[..n]);
      var ledgers := if outcomes[n].Success? then earlier + [infos[n].fileInfoPath] else earlier;
      assert forall k | 0 <= k < n :: infos[..n][k] == infos[k] && outcomes[..n][k] == outcomes[k];
      ledgers
  }

  /** The successes, in order. */
  function Successes(outcomes: seq<Outcome>): (s: seq<Outcome>)
    ensures forall k | 0 <= k < |s| :: s[k].Success? && s[k] in outcomes
    ensures forall o | o in outcomes && o.Success? :: o in s
  {
    if outcomes == [] then []
    else
      var n := |outcomes| - 1;
      var earlier := Successes(outcomes[..n]);
      assert forall o | o in outcomes :: o in outcomes[..n] || o == outcomes[n];
      if outcomes[n].Success? then earlier + [outcomes[n]] else earlier
  }

  /** The failures (process_excs), in order. */
  function Failures(outcomes: seq<Outcome>): (f: seq<Outcome>)
    ensures forall k | 0 <= k < |f| :: f[k].Failure? && f[k] in outcomes
    ensures forall o | o in outcomes && o.Failure? :: o in f
    ensures f == [] <==> forall k | 0 <= k < |outcomes| :: outcomes[k].Success?
  {
    if outcomes == [] then []
    else
      var n := |outcomes| - 1;
      var earlier := Failures(outcomes[..n]);
      assert forall o | o in outcomes :: o in outcomes[..n] || o == outcomes[n];
      assert forall k | 0 <= k < n :: outcomes[..n][k] == outcomes[k];
      if outcomes[n].Failure? then earlier + [outcomes[n]] else earlier
  }

  /** Every outcome is a success or a failure, never both. */
  lemma {:induction false} SuccessesAndFailuresPartition(outcomes: seq<Outcome>)
    ensures |Successes(outcomes)| + |Failures(outcomes)| == |outcomes|
  {
    if outcomes != [] {
      SuccessesAndFailuresPartition(outcomes[..|outcomes| - 1]);
    }
  }

  /** total_size: the sum of the sizes of the successes. */
  function SuccessTotal(outcomes: seq<Outcome>): int {
    if outcomes == [] then 0
    else
      var n := |outcomes| - 1;
      SuccessTotal(outcomes[..n]) + (if outcomes[n].Success? then outcomes[n].totalSize else 0)
  }

  /** The total is the sum over the successes alone. */
  lemma {:induction false} SuccessTotalOfSuccesses(outcomes: seq<Outcome>)
    ensures SuccessTotal(Successes(outcomes)) == SuccessTotal(outcomes)
  {
    if outcomes != [] {
      var n := |outcomes| - 1;
      SuccessTotalOfSuccesses(outcomes[..n]);
      var earlier := Successes(outcomes[..n]);
      if outcomes[n].Success? {
        assert (earlier + [outcomes[n]])[..|earlier|] == earlier;
      }
    }
  }

  /** A line of the run's output. */
  datatype Line =
    | Written(fileName: string, headerPath: string, totalSize: int)
    | Failed(fileName: string, error: Error)
    | ProcessedSize(totalSize: int)

  function LineOf(o: Outcome): Line {
    match o
    case Success(name, header, size) => Written(name, header, size)
    case Failure(name, error) => Failed(name, error)
  }

  function Lines(outcomes: seq<Outcome>): (lines: seq<Line>)
    ensures |lines| == |outcomes|
    ensures forall k | 0 <= k < |outcomes| :: lines[k] == LineOf(outcomes[k])
  {
    if outcomes == [] then [] else Lines(outcomes[..|outcomes| - 1]) + [LineOf(outcomes[|outcomes| - 1])]
  }

  /** What process_graphics prints after the pool: one line per success,
      then one per failure and no total, or the total when nothing failed.
      Every success line comes before every failure line. */
  function ReportLines(outcomes: seq<Outcome>): (lines: seq<Line>)
    ensures forall i, j | 0 <= i < j < |lines| :: lines[j].Written? ==> lines[i].Written?
    ensures (forall k | 0 <= k < |outcomes| :: outcomes[k].Success?) <==>
            lines != [] && lines[|lines| - 1] == ProcessedSize(SuccessTotal(outcomes))
  {
    var successes, failures := Successes(outcomes), Failures(outcomes);
    var written := Lines(successes);
    var closing := if failures == [] then [ProcessedSize(SuccessTotal(outcomes))] else Lines(failures);
    assert forall k | 0 <= k < |written| :: written[k].Written?;
    assert forall k | 0 <= k < |closing| :: !closing[k].Written?;
    assert failures != [] ==> closing[|closing| - 1] == LineOf(failures[|failures| - 1]);
    written + closing
  }

  /** Every file processed has its line in the report. */
  lemma {:induction false} ReportListsEveryOutcome(outcomes: seq<Outcome>)
    ensures forall o | o in outcomes :: LineOf(o) in ReportLines(outcomes)
  {
    var successes, failures := Successes(outcomes), Failures(outcomes);
    var written := Lines(successes);
    var lines := ReportLines(outcomes);
    forall o | o in outcomes
      ensures LineOf(o) in lines
    {
      if o.Success? {
        var k :| 0 <= k < |successes| && successes[k] == o;
        assert lines[k] == written[k] == LineOf(o);
      } else {
        var k :| 0 <= k < |failures| && failures[k] == o;
        assert lines[|written| + k] == Lines(failures)[k] == LineOf(o);
      }
    }
  }

  /** exit(-1) exactly when some file failed. */
  function ExitCode(outcomes: seq<Outcome>): (code: int)
    ensures code == 0 || code == -1
    ensures code == -1 <==> exists k | 0 <= k < |outcomes| :: outcomes[k].Failure?
  {
    if Failures(outcomes) == [] then 0 else -1
  }

  /** What a run shows: the names announced before processing, the result
      lines, and the exit status. */
  datatype RunLog = RunLog(announced: seq<string>, lines: seq<Line>, exitCode: int)

  function FileNames(infos: seq<GraphicsFileInfo>): (names: seq<string>)
    ensures |names| == |infos|
    ensures forall k | 0 <= k < |infos| :: names[k] == infos[k].fileName
  {
    if infos == [] then [] else FileNames(infos[..|infos| - 1]) + [infos[|infos| - 1].fileName]
  }

  /** process_graphics: discovery errors propagate before anything is
      processed; with nothing to rebuild, nothing is printed. */
  function RunTool(paths: string, buildFolderPath: string, fs: FileSystem, validate: string -> bool,
                   env: Environment): (r: Result<RunLog>)
    ensures Discover(paths, buildFolderPath, fs, validate).Err? ==>
              r == Err(Discover(paths, buildFolderPath, fs, validate).error)
    ensures r.Ok? && r.value.exitCode == 0 && r.value.lines != [] ==>
              r.value.lines[|r.value.lines| - 1].ProcessedSize?
    ensures r.Ok? ==> Discover(paths, buildFolderPath, fs, validate).Ok?
    ensures r.Ok? && Discover(paths, buildFolderPath, fs, validate).value == [] ==> r.value == RunLog([], [], 0)
    ensures r.Ok? && Discover(paths, buildFolderPath, fs, validate).value != [] ==>
              var infos := Discover(paths, buildFolderPath, fs, validate).value;
              var outcomes := Outcomes(infos, buildFolderPath, env);
              r.value.announced == FileNames(infos) && r.value.lines == ReportLines(outcomes) &&
              r.value.exitCode == ExitCode(outcomes)
    ensures Discover(paths, buildFolderPath, fs, validate).Ok? ==> r.Ok?
  {
    var infos :- Discover(paths, buildFolderPath, fs, validate);
    if |infos| == 0 then Ok(RunLog([], [], 0))
    else
      var outcomes := Outcomes(infos, buildFolderPath, env);
      Ok(RunLog(FileNames(infos), ReportLines(outcomes), ExitCode(outcomes)))
  }

  /** A run with files to rebuild announces each of them, exits with -1
      exactly when one of them fails, and otherwise closes with the sum of
      their sizes; a run with nothing to rebuild prints nothing. */
  lemma {:induction false} RunToolReportsOutcomes(paths: string, buildFolderPath: string, fs: FileSystem,
                                                  validate: string -> bool, env: Environment)
    requires RunTool(paths, buildFolderPath, fs, validate, env).Ok?
    ensures var log := RunTool(paths, buildFolderPath, fs, validate, env).value;
            var infos := Discover(paths, buildFolderPath, fs, validate).value;
            |log.announced| == |infos| && (infos == [] ==> log.lines == [] && log.exitCode == 0)
    ensures var log := RunTool(paths, buildFolderPath, fs, validate, env).value;
            var infos := Discover(paths, buildFolderPath, fs, validate).value;
            infos != [] ==>
              (log.exitCode == -1 <==>
                 exists k | 0 <= k < |infos| :: ProcessOutcome(infos[k], buildFolderPath, env).Failure?)
    ensures var log := RunTool(paths, buildFolderPath, fs, validate, env).value;
            var infos := Discover(paths, buildFolderPath, fs, validate).value;
            var outcomes := Outcomes(infos, buildFolderPath, env);
            log.exitCode == 0 && infos != [] ==>
              log.lines != [] && log.lines[|log.lines| - 1] == ProcessedSize(SuccessTotal(outcomes))
  {
    var infos := Discover(paths, buildFolderPath, fs, validate).value;
    var outcomes := Outcomes(infos, buildFolderPath, env);
    var log := RunTool(paths, buildFolderPath, fs, validate, env).value;
    if infos == [] {
      assert log == RunLog([], [], 0);
    } else {
      assert log == RunLog(FileNames(infos), ReportLines(outcomes), ExitCode(outcomes));
      assert forall k | 0 <= k < |infos| :: outcomes[k] == ProcessOutcome(infos[k], buildFolderPath, env);
    }
  }

  /** The loops of process_graphics after the pool: successes are printed
      and summed, failures collected and printed afterwards. */
  method Report(outcomes: seq<Outcome>) returns (lines: seq<Line>, exitCode: int)
    ensures lines == ReportLines(outcomes)
    ensures exitCode == ExitCode(outcomes)
  {
    var totalSize := 0;
    var failures: seq<Outcome> := [];
    lines := [];
    for i := 0 to |outcomes|
      invariant totalSize == SuccessTotal(outcomes[..i])
      invariant failures == Failures(outcomes[..i])
      invariant lines == Lines(Successes(outcomes[..i]))
    {
      assert outcomes[..i + 1][..i] == outcomes[..i];
      var result := outcomes[i];
      if result.Success? {
        totalSize := totalSize + result.totalSize;
        lines := lines + [Written(result.fileName, result.headerPath, result.totalSize)];
      } else {
        failures := failures + [result];
      }
    }
    assert outcomes[..|outcomes|] == outcomes;
    if |failures| > 0 {
      lines := AppendFailureLines(lines, failures);
      return lines, -1;
    }
    lines := lines + [ProcessedSize(totalSize)];
    exitCode := 0;
  }

  /** The loop writing one line per failure. */
  method AppendFailureLines(lines: seq<Line>, failures: seq<Outcome>) returns (extended: seq<Line>)
    requires forall k | 0 <= k < |failures| :: failures[k].Failure?
    ensures extended == lines + Lines(failures)
  {
    extended := lines;
    for j := 0 to |failures|
      invariant extended == lines + Lines(failures[..j])
    {
      assert failures[..j + 1][..j] == failures[..j];
      extended := extended + [Failed(failures[j].fileName, failures[j].error)];
    }
    assert failures[..|failures|] == failures;
  }

  /** Processing one more file adds its outcome at the end. */
  lemma {:induction false} OutcomesStep(infos: seq<GraphicsFileInfo>, i: nat, buildFolderPath: string,
                                        env: Environment)
    requires i < |infos|
    ensures Outcomes(infos[..i + 1], buildFolderPath, env) ==
            Outcomes(infos[..i], buildFolderPath, env) + [ProcessOutcome(infos[i], buildFolderPath, env)]
  {
    MapStep(info => ProcessOutcome(info, buildFolderPath, env), infos, i);
  }

  /** One more file adds its ledger exactly when it succeeded. */
  lemma {:induction false} LedgersStep(infos: seq<GraphicsFileInfo>, i: nat, outcomes: seq<Outcome>, outcome: Outcome)
    requires i < |infos| && |outcomes| == i
    ensures Ledgers(infos[..i + 1], outcomes + [outcome]) ==
            Ledgers(infos[..i], outcomes) + (if outcome.Success? then [infos[i].fileInfoPath] else [])
  {
    assert infos[..i + 1][..i] == infos[..i];
    assert (outcomes + [outcome])[..i] == outcomes;
  }

  /** One step of the pool: the next file is processed, its outcome added
      and its ledger written if it succeeded. */
  method ProcessNext(infos: seq<GraphicsFileInfo>, i: nat, buildFolderPath: string, env: Environment,
                     outcomes: seq<Outcome>, ledgers: seq<string>)
    returns (outcomes': seq<Outcome>, ledgers': seq<string>)
    requires i < |infos| && |outcomes| == i
    requires outcomes == Outcomes(infos[..i], buildFolderPath, env)
    requires ledgers == Ledgers(infos[..i], outcomes)
    ensures |outcomes'| == i + 1
    ensures outcomes' == Outcomes(infos[..i + 1], buildFolderPath, env)
    ensures ledgers' == Ledgers(infos[..i + 1], outcomes')
  {
    var outcome, ledger := ProcessFile(infos[i], buildFolderPath, env);
    OutcomesStep(infos, i, buildFolderPath, env);
    LedgersStep(infos, i, outcomes, outcome);
    outcomes' := outcomes + [outcome];
    ledgers' := ledgers;
    if ledger.Some? {
      ledgers' := ledgers + [ledger.value];
    }
  }

  /** pool.map(process_graphics_file, ...), run one file after the other:
      the outcome of every file, in order, and the ledger files written. */
  method ProcessAll(infos: seq<GraphicsFileInfo>, buildFolderPath: string, env: Environment)
    returns (outcomes: seq<Outcome>, ledgers: seq<string>)
    ensures outcomes == Outcomes(infos, buildFolderPath, env)
    ensures ledgers == Ledgers(infos, outcomes)
  {
    outcomes := [];
    ledgers := [];
    for i := 0 to |infos|
      invariant |outcomes| == i
      invariant outcomes == Outcomes(infos[..i], buildFolderPath, env)
      invariant ledgers == Ledgers(infos[..i], outcomes)
    {
      outcomes, ledgers := ProcessNext(infos, i, buildFolderPath, env, outcomes, ledgers);
    }
    assert infos[..|infos|] == infos;
  }

  /** process_graphics, with the pool run one file after the other; also
      returns the ledger files written. */
  method ProcessGraphics(paths: string, buildFolderPath: string, fs: FileSystem, validate: string -> bool,
                         env: Environment) returns (r: Result<RunLog>, ledgers: seq<string>)
    ensures r == RunTool(paths, buildFolderPath, fs, validate, env)
    ensures r.Err? ==> ledgers == []
    ensures r.Ok? ==>
              var infos := Discover(paths, buildFolderPath, fs, validate).value;
              ledgers == Ledgers(infos, Outcomes(infos, buildFolderPath, env))
  {
    var listed := ListGraphicsFileInfos(paths, buildFolderPath, fs, validate);
    if listed.Err? {
      return Err(listed.error), [];
    }
    var infos := listed.value;
    if |infos| == 0 {
      return Ok(RunLog([], [], 0)), [];
    }
    var outcomes;
    outcomes, ledgers := ProcessAll(infos, buildFolderPath, env);
    var lines, exitCode := Report(outcomes);
    return Ok(RunLog(FileNames(infos), lines, exitCode)), ledgers;
  }
}
