/**
 * `json_parse_index` of the earlier parser generation (`json_parser_old.c`): files up
 * to 10000 bytes are parsed in memory, larger ones by the streaming parser with the
 * minimal parser as its fallback. Unlike the later generation, the folder loop moves
 * past each folder (well formed or not) by brace counting.
 */
module JsonParserOld {
  import opened Esp
  import opened Search
  import opened JsonText
  import opened JsonRecord
  import opened ArrayWalk
  import opened OldRecord
  import opened OldStream
  import opened OldMinimal

  /** Files larger than this many bytes go to the streaming parser. */
  const STREAM_THRESHOLD := 10000

  /** `parse_file_entry` as the loops call it. */
  function EntryParser(z: Sizes): (f: string -> Entry)
    requires z.Valid()
    ensures forall obj :: f(obj) == EntryOf(z, obj)
  {
    obj => EntryOf(z, obj)
  }

  /** The file array whose `[` is at `a`: cursor past the first `}` after a file, kept after a bad one. */
  function EntriesAt(z: Sizes, s: string, a: nat): (r: seq<Slot<Entry>>)
    requires z.Valid() && a < |s|
    ensures |r| == ArraySize(s, a)
  {
    Fill(s, a + 1, 0, Blank(ArraySize(s, a)), EntryParser(z), FirstClose, Stay)
  }

  /** One folder object: its name (default `unknown`) and its `files` array, if any. */
  function FolderOf(z: Sizes, obj: string): Folder
    requires z.Valid()
  {
    var name := StringOr(obj, "name", z.name, "unknown");
    var a := ArrayAt(obj, "files");
    if a == -1 then Folder(name, None, 0)
    else Folder(name, Some(EntriesAt(z, obj, a)), ArraySize(obj, a))
  }

  /** The folder parse as the loop calls it. */
  function FolderParser(z: Sizes): (f: string -> Folder)
    requires z.Valid()
    ensures forall obj :: f(obj) == FolderOf(z, obj)
  {
    obj => FolderOf(z, obj)
  }

  /** The folder array whose `[` is at `m`: brace counting past every folder, well formed or not. */
  function Folders(z: Sizes, s: string, m: nat): (r: seq<Slot<Folder>>)
    requires z.Valid() && m < |s|
    ensures |r| == ArraySize(s, m)
  {
    Fill(s, m + 1, 0, Blank(ArraySize(s, m)), FolderParser(z), WholeObject, WholeObject)
  }

  /**
   * The record the in-memory path leaves for the document `doc`: version (default
   * `1.0`), the `allFiles` array with `totalFiles` set to its size (0 without one), the
   * `musicFolders` array and its size.
   */
  function ParsedIndex(z: Sizes, doc: string): Index
    requires z.Valid()
  {
    var version := StringOr(doc, "version", z.version, "1.0");
    var fa := ArrayAt(doc, "allFiles");
    var ma := ArrayAt(doc, "musicFolders");
    Index(version,
          if fa == -1 then 0 else ArraySize(doc, fa),
          if fa == -1 then None else Some(EntriesAt(z, doc, fa)),
          if ma == -1 then None else Some(Folders(z, doc, ma)),
          if ma == -1 then 0 else ArraySize(doc, ma))
  }

  // ------------------------------------------------------------ properties

  /**
   * The counts the player bounds its loops and indices with are exactly the lengths of
   * the arrays (0 when an array is absent), and the version fits its array.
   */
  lemma IndexShape(z: Sizes, doc: string)
    requires z.Valid()
    ensures var x := ParsedIndex(z, doc);
      |x.version| <= z.version - 1 &&
      (x.allFiles.None? ==> x.totalFiles == 0) && (x.allFiles.Some? ==> x.totalFiles == |x.allFiles.value|) &&
      (x.folders.None? ==> x.folderCount == 0) && (x.folders.Some? ==> x.folderCount == |x.folders.value|)
  {
  }

  /** Missing keys give version `1.0` (cut to its array), and no arrays with counts 0. */
  lemma IndexDefaults(z: Sizes, doc: string)
    requires z.Valid()
    ensures Absent(doc, "version") ==> ParsedIndex(z, doc).version == Truncate("1.0", z.version)
    ensures Absent(doc, "allFiles") ==> ParsedIndex(z, doc).allFiles.None? && ParsedIndex(z, doc).totalFiles == 0
    ensures Absent(doc, "musicFolders") ==> ParsedIndex(z, doc).folders.None? && ParsedIndex(z, doc).folderCount == 0
  {
    ValueAtKey(doc, "version");
    ValueAtKey(doc, "allFiles");
    ValueAtKey(doc, "musicFolders");
  }

  /** The bodies index.json writes for the string fields of a list of entries. */
  function EntryBodies(entries: seq<Entry>): (r: seq<string>)
    ensures |r| == |entries|
  {
    seq(|entries|, i requires 0 <= i < |entries| => FieldsText(StringFields(entries[i])))
  }

  /** Every entry's strings are plain and fit their arrays. */
  predicate AllFit(z: Sizes, entries: seq<Entry>) {
    forall i :: 0 <= i < |entries| ==> Fits(z, entries[i])
  }

  /** An entry as the parser reads it back from its string fields alone. */
  function Strings(e: Entry): Entry {
    e.(sampleRate := 0, bitDepth := 0, channels := 0, folderIndex := 0)
  }

  /** Written entries hold no brace. */
  lemma EntryBodiesBraceFree(z: Sizes, entries: seq<Entry>)
    requires AllFit(z, entries)
    ensures BraceFree(EntryBodies(entries))
  {
    var bodies := EntryBodies(entries);
    forall n | 0 <= n < |bodies|
      ensures forall k :: 0 <= k < |bodies[n]| ==> bodies[n][k] != '{' && bodies[n][k] != '}'
    {
      assert Word("name") && Word("path") && Word("song") && Word("album") && Word("artist");
      RecordBraceFree(StringFields(entries[n]));
    }
  }

  /** The written entries parse back one by one. */
  lemma ParsedEntries(z: Sizes, entries: seq<Entry>)
    requires z.Valid() && AllFit(z, entries)
    ensures Parsed(EntryBodies(entries), EntryParser(z)) ==
      seq(|entries|, i requires 0 <= i < |entries| => Set(Strings(entries[i])))
  {
    var bodies := EntryBodies(entries);
    forall i | 0 <= i < |entries|
      ensures Parsed(bodies, EntryParser(z))[i] == Set(Strings(entries[i]))
    {
      ParsedAt(bodies, EntryParser(z), i);
      EntryStringsRoundTrip(z, entries[i]);
    }
  }

  /** A file array written from `entries` and closed by `]` is read back entry by entry. */
  lemma EntriesOfElements(z: Sizes, s: string, a: nat, entries: seq<Entry>)
    requires z.Valid() && AllFit(z, entries)
    requires var t := Elements(EntryBodies(entries));
      a + |t| + 1 < |s| && s[a] == '[' && s[a + 1..a + 1 + |t|] == t && s[a + 1 + |t|] == ']'
    ensures ArraySize(s, a) == |entries|
    ensures EntriesAt(z, s, a) == seq(|entries|, i requires 0 <= i < |entries| => Set(Strings(entries[i])))
  {
    hide Fill, Parsed, Elements, EntryBodies, EntryParser, ObjectEnd, SizeFrom, Walkable, EntryOf, AllFit, Strings,
      BraceFree, ArraySize;
    var bodies := EntryBodies(entries);
    var n := |entries|;
    EntryBodiesBraceFree(z, entries);
    BraceFreeWalkable(bodies, FirstClose);
    ArraySizeOfElements(s, a, bodies);
    ParsedEntries(z, entries);
    FillElements(s, a + 1, a + 1, 0, Blank(n), bodies, EntryParser(z), FirstClose, Stay);
    assert Blank<Entry>(n)[..0] == [];
  }

  /**
   * An `allFiles` array written from the string fields of `entries` parses back to
   * those entries (their numbers read as 0), in order, and `totalFiles` becomes their number.
   */
  lemma AllFilesRoundTrip(z: Sizes, doc: string, entries: seq<Entry>)
    requires z.Valid() && AllFit(z, entries)
    requires var a, t := ArrayAt(doc, "allFiles"), Elements(EntryBodies(entries));
      a != -1 && a + |t| + 1 < |doc| && doc[a + 1..a + 1 + |t|] == t && doc[a + 1 + |t|] == ']'
    ensures ParsedIndex(z, doc).allFiles == Some(seq(|entries|, i requires 0 <= i < |entries| => Set(Strings(entries[i]))))
    ensures ParsedIndex(z, doc).totalFiles == |entries|
  {
    ArrayAtSpec(doc, "allFiles");
    EntriesOfElements(z, doc, ArrayAt(doc, "allFiles"), entries);
  }

  /**
   * A `musicFolders` array of whole objects gives one folder per object, in order,
   * however deeply each folder nests its own arrays.
   */
  lemma FoldersWalk(z: Sizes, doc: string, bodies: seq<string>)
    requires z.Valid() && AllWhole(bodies)
    requires var m, t := ArrayAt(doc, "musicFolders"), Elements(bodies);
      m != -1 && m + |t| + 1 < |doc| && doc[m + 1..m + 1 + |t|] == t && doc[m + 1 + |t|] == ']'
    ensures ParsedIndex(z, doc).folders == Some(Parsed(bodies, FolderParser(z)))
    ensures ParsedIndex(z, doc).folderCount == |bodies|
  {
    var m := ArrayAt(doc, "musicFolders");
    ArrayAtSpec(doc, "musicFolders");
    ArraySizeOfElements(doc, m, bodies);
    hide Fill, Parsed, Elements, ObjectEnd, SizeFrom, FolderOf, FolderParser, ArrayAt;
    FillElements(doc, m + 1, m + 1, 0, Blank(|bodies|), bodies, FolderParser(z), WholeObject, WholeObject);
  }

  // ------------------------------------------------------------ the parser

  /**
   * `json_parse_index` on the file `path` of the card `disk`. A NULL record or path is
   * an invalid argument; a missing or empty file fails. Files over 10000 bytes go to
   * the streaming parser and, unless it succeeds, to the minimal parser; smaller ones
   * are read whole and parsed in memory. Any allocation may fail with `NoMem`.
   */
  method ParseIndex(index: IndexRecord?, z: Sizes, path: Option<string>, disk: map<string, seq<char>>)
    returns (r: ErrCode)
    requires z.Valid()
    modifies index
    ensures index == null || path.None? ==> r == InvalidArg
    ensures index != null && path.Some? && (path.value !in disk || |disk[path.value]| == 0) ==> r == EspFail
    ensures index != null && path.Some? && path.value in disk && 0 < |disk[path.value]| <= STREAM_THRESHOLD ==>
      (r == EspOk || r == NoMem) && (r == EspOk ==> index.Value() == ParsedIndex(z, CStr(disk[path.value])))
    ensures index != null && path.Some? && path.value in disk && |disk[path.value]| > STREAM_THRESHOLD && r != NoMem ==>
      var c := disk[path.value];
      var st, o := StreamFrom(z, c, 0, Start()), MinimalFrom(z, c, 0, Unset);
      (r == EspOk && st.found > 0 && index.Value() == Final(st)) ||
      ((r == EspOk <==> o.found) && index.Value() == MinimalIndex(o))
    ensures index != null && path.Some? && path.value in disk && |disk[path.value]| > STREAM_THRESHOLD && r != NoMem &&
            StreamFrom(z, disk[path.value], 0, Start()).found == 0 ==>
      var o := MinimalFrom(z, disk[path.value], 0, Unset);
      (r == EspOk <==> o.found) && index.Value() == MinimalIndex(o)
  {
    if index == null || path.None? {
      return InvalidArg;
    }
    if path.value !in disk || |disk[path.value]| == 0 {
      return EspFail;
    }
    var c := disk[path.value];
    if |c| > STREAM_THRESHOLD {
      r := Streaming(index, z, Some(c));
      if r == EspOk {
        return;
      }
      r := Minimal(index, z, Some(c));
      return;
    }
    var ok: bool :| true;
    if !ok {
      return NoMem;
    }
    r := Load(index, z, CStr(c));
  }

  /** The in-memory path once the document is read: every field of the record is assigned. */
  method Load(index: IndexRecord, z: Sizes, doc: string) returns (r: ErrCode)
    requires z.Valid()
    modifies index
    ensures r == EspOk || r == NoMem
    ensures r == EspOk ==> index.Value() == ParsedIndex(z, doc)
  {
    var v := ExtractString(doc, "version");
    index.version := if v.Some? then Truncate(v.value, z.version) else Truncate("1.0", z.version);
    index.totalFiles := ExtractInt(doc, "totalFiles");
    var ok := LoadFiles(index, z, doc);
    if !ok {
      return NoMem;
    }
    ok := LoadFolders(index, z, doc);
    if !ok {
      return NoMem;
    }
    return EspOk;
  }

  /** The `allFiles` part; `totalFiles` is overwritten by the array's size, or 0. */
  method LoadFiles(index: IndexRecord, z: Sizes, doc: string) returns (ok: bool)
    requires z.Valid()
    modifies index
    ensures index.version == old(index.version) && index.musicFolders == old(index.musicFolders)
    ensures index.folderCount == old(index.folderCount)
    ensures ok ==> index.totalFiles == ParsedIndex(z, doc).totalFiles
    ensures ok ==> (index.allFiles == null <==> ParsedIndex(z, doc).allFiles.None?)
    ensures ok && index.allFiles != null ==> fresh(index.allFiles) && ParsedIndex(z, doc).allFiles == Some(index.allFiles[..])
  {
    hide StringValue, IntValue, ArraySize, EntriesAt, Folders, StringOr;
    var fa := FindArray(doc, "allFiles");
    if fa != -1 {
      var n := GetArraySize(doc, fa);
      index.totalFiles := n;
      var files := ParseFiles(z, doc, fa);
      if files == null {
        return false;
      }
      index.allFiles := files;
    } else {
      index.allFiles := null;
      index.totalFiles := 0;
    }
    return true;
  }

  /** The `musicFolders` part and its count. */
  method LoadFolders(index: IndexRecord, z: Sizes, doc: string) returns (ok: bool)
    requires z.Valid()
    modifies index
    ensures index.version == old(index.version) && index.allFiles == old(index.allFiles)
    ensures index.totalFiles == old(index.totalFiles)
    ensures ok ==> index.folderCount == ParsedIndex(z, doc).folderCount
    ensures ok ==> (index.musicFolders == null <==> ParsedIndex(z, doc).folders.None?)
    ensures ok && index.musicFolders != null ==>
      fresh(index.musicFolders) && ParsedIndex(z, doc).folders == Some(index.musicFolders[..])
  {
    hide StringValue, IntValue, ArraySize, EntriesAt, Folders, StringOr;
    var ma := FindArray(doc, "musicFolders");
    if ma != -1 {
      var n := GetArraySize(doc, ma);
      index.folderCount := n;
      var folders := ParseFolders(z, doc, ma);
      if folders == null {
        return false;
      }
      index.musicFolders := folders;
    } else {
      index.musicFolders := null;
      index.folderCount := 0;
    }
    return true;
  }

  /** The `allFiles` array: allocated (NULL when that fails), then filled. */
  method ParseFiles(z: Sizes, doc: string, a: nat) returns (files: array?<Slot<Entry>>)
    requires z.Valid() && a < |doc|
    ensures files != null ==> fresh(files) && files[..] == EntriesAt(z, doc, a)
  {
    var n := GetArraySize(doc, a);
    var ok: bool :| true;
    if !ok {
      return null;
    }
    files := new Slot<Entry>[n](_ => Unset);
    assert files[..] == Blank(n);
    FillSlots(doc, a, files, EntryParser(z), FirstClose, Stay);
  }

  /** The `musicFolders` array: allocated (NULL when that or a folder's file array fails), then filled. */
  method ParseFolders(z: Sizes, doc: string, m: nat) returns (folders: array?<Slot<Folder>>)
    requires z.Valid() && m < |doc|
    ensures folders != null ==> fresh(folders) && folders[..] == Folders(z, doc, m)
  {
    var n := GetArraySize(doc, m);
    var ok: bool :| true;
    if !ok {
      return null;
    }
    folders := new Slot<Folder>[n](_ => Unset);
    assert folders[..] == Blank(n);
    ok := FillFolders(z, doc, m, folders);
    if !ok {
      return null;
    }
  }

  /** One folder object; the allocation of its file array may fail. */
  method ParseFolder(z: Sizes, obj: string) returns (r: Result<Folder>)
    requires z.Valid()
    ensures r.Ok? ==> r.value == FolderOf(z, obj)
    ensures r.Err? ==> r.code == NoMem
  {
    hide StringValue, ArraySize, Fill, ValueAt, Truncate;
    var name := ExtractString(obj, "name");
    var folderName := if name.Some? then Truncate(name.value, z.name) else Truncate("unknown", z.name);
    var a := FindArray(obj, "files");
    if a == -1 {
      return Ok(Folder(folderName, None, 0));
    }
    var n := GetArraySize(obj, a);
    var ok: bool :| true;
    if !ok {
      return Err(NoMem);
    }
    var files := new Slot<Entry>[n](_ => Unset);
    assert files[..] == Blank(n);
    FillSlots(obj, a, files, EntryParser(z), FirstClose, Stay);
    return Ok(Folder(folderName, Some(files[..]), n));
  }

  /** The folder loop, writing the folder array in place; brace counting after every folder. */
  method FillFolders(z: Sizes, s: string, m: nat, folders: array<Slot<Folder>>) returns (ok: bool)
    requires z.Valid() && m < |s|
    modifies folders
    ensures ok ==> folders[..] == Fill(s, m + 1, 0, old(folders[..]), FolderParser(z), WholeObject, WholeObject)
  {
    var pos: nat := m + 1;
    var i := 0;
    while i < folders.Length
      invariant 0 <= i <= folders.Length && pos <= |s|
      invariant Fill(s, pos, i, folders[..], FolderParser(z), WholeObject, WholeObject) ==
                Fill(s, m + 1, 0, old(folders[..]), FolderParser(z), WholeObject, WholeObject)
    {
      var p := Skip(s, pos, NotOpen);
      if p == |s| {
        return true;
      }
      var obj := ExtractObject(s, p);
      if obj.Some? {
        var f := ParseFolder(z, obj.value);
        if f.Err? {
          return false;
        }
        folders[i] := Set(f.value);
      }
      pos := AdvanceCursor(s, p, WholeObject);
      i := i + 1;
    }
    return true;
  }

  /**
   * `json_free_index`: a NULL record is an invalid argument; otherwise both arrays are
   * released (the folders' own file arrays with them) and the pointers cleared.
   */
  method FreeIndex(index: IndexRecord?) returns (r: ErrCode)
    modifies index
    ensures index == null ==> r == InvalidArg
    ensures index != null ==> r == EspOk && index.allFiles == null && index.musicFolders == null
    ensures index != null ==> index.version == old(index.version) && index.totalFiles == old(index.totalFiles)
    ensures index != null ==> index.folderCount == old(index.folderCount)
  {
    if index == null {
      return InvalidArg;
    }
    index.allFiles := null;
    index.musicFolders := null;
    return EspOk;
  }
}
