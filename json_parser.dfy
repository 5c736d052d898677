/**
 * `json_parse_index` of the current parser: the index record it fills from index.json
 * (version, file list, folders with their own file lists), `json_free_index`, and
 * `json_get_full_path`, which builds the path of a file on the card.
 */
module JsonParser {
  import opened Esp
  import opened Search
  import opened JsonText
  import opened JsonRecord
  import opened ArrayWalk

  /** Capacities of the record's character arrays. */
  const NAME_CAP := 256
  const PATH_CAP := 256
  const VERSION_CAP := 16

  /** Directory under the mount point that holds the music. */
  const MUSIC_DIR := "/ESP32_MUSIC"

  datatype FileEntry = FileEntry(name: string, path: string)

  /** A folder; `files` is `None` where the C pointer is NULL. */
  datatype Folder = Folder(name: string, files: Option<seq<Slot<FileEntry>>>, fileCount: int)

  /** The whole index record. */
  datatype Index = Index(version: string, totalFiles: int, allFiles: Option<seq<Slot<FileEntry>>>,
                         folders: Option<seq<Slot<Folder>>>, folderCount: int)

  /** A freshly allocated array of `n` cells. */
  function Blank<T>(n: nat): (r: seq<Slot<T>>)
    ensures |r| == n && forall i :: 0 <= i < n ==> r[i] == Unset
  {
    seq(n, _ => Unset)
  }

  /** A string field copied into a `char[cap]`, or the default when the key gives no string. */
  function StringOr(obj: string, key: string, cap: nat, default: string): string
    requires cap >= 1
  {
    match StringValue(obj, key)
    case Some(v) => Truncate(v, cap)
    case None => default
  }

  /** One file object: name (default `unknown`) and path (default empty). */
  function EntryOf(obj: string): FileEntry {
    FileEntry(StringOr(obj, "name", NAME_CAP, "unknown"), StringOr(obj, "path", PATH_CAP, ""))
  }

  /** The file array of an object whose `[` is at `a`, walked with cursor move `how`. */
  function EntriesAt(s: string, a: nat): (r: seq<Slot<FileEntry>>)
    requires a < |s|
    ensures |r| == ArraySize(s, a)
  {
    Fill(s, a + 1, 0, Blank(ArraySize(s, a)), EntryOf, FirstClose, Stay)
  }

  /** One folder object: its name and, when it has a `files` array, the entries of it. */
  function FolderOf(obj: string): Folder {
    var name := StringOr(obj, "name", NAME_CAP, "unknown");
    var a := ArrayAt(obj, "files");
    if a == -1 then Folder(name, None, 0)
    else Folder(name, Some(EntriesAt(obj, a)), ArraySize(obj, a))
  }

  /** The folder array whose `[` is at `m`, with the cursor moved past each folder by `how`. */
  function FolderSlots(s: string, m: nat, how: Advance): (r: seq<Slot<Folder>>)
    requires m < |s|
    ensures |r| == ArraySize(s, m)
  {
    Fill(s, m + 1, 0, Blank(ArraySize(s, m)), FolderOf, how, Stay)
  }

  /**
   * The folder loop as written: after a folder it moves only past the first `}`, which
   * in a folder with a `files` array closes the first file, not the folder.
   */
  function FoldersAsWritten(s: string, m: nat): (r: seq<Slot<Folder>>)
    requires m < |s|
    ensures |r| == ArraySize(s, m)
  {
    FolderSlots(s, m, FirstClose)
  }

  /** The folder loop corrected: brace counting moves past the whole folder object. */
  function Folders(s: string, m: nat): (r: seq<Slot<Folder>>)
    requires m < |s|
    ensures |r| == ArraySize(s, m)
  {
    FolderSlots(s, m, WholeObject)
  }

  /**
   * The record a successful `json_parse_index` leaves for the document `doc` when the
   * folder loop moves its cursor by `how`. `totalFiles` read from the document is always
   * overwritten: by the size of `allFiles`, or by 0 when there is none.
   */
  function IndexWith(doc: string, how: Advance): Index {
    var version := StringOr(doc, "version", VERSION_CAP, "1.0");
    var fa := ArrayAt(doc, "allFiles");
    var ma := ArrayAt(doc, "musicFolders");
    Index(version,
          if fa == -1 then 0 else ArraySize(doc, fa),
          if fa == -1 then None else Some(EntriesAt(doc, fa)),
          if ma == -1 then None else Some(FolderSlots(doc, ma, how)),
          if ma == -1 then 0 else ArraySize(doc, ma))
  }

  /** What `json_parse_index` as written leaves: the folder loop moves past the first `}` only. */
  function ParsedIndexAsWritten(doc: string): Index {
    IndexWith(doc, FirstClose)
  }

  /** What `json_parse_index` leaves with the folder loop corrected to skip whole folders. */
  function ParsedIndex(doc: string): Index {
    IndexWith(doc, WholeObject)
  }

  // ------------------------------------------------------------ properties

  /**
   * Missing keys give the documented defaults: version `1.0`, no file array with
   * `totalFiles` 0 (whatever `"totalFiles"` says), no folder array with count 0.
   */
  lemma IndexDefaults(doc: string)
    ensures (forall q :: 0 <= q ==> !OccursAt(doc, KeyPattern("version"), q)) ==>
      ParsedIndexAsWritten(doc).version == "1.0"
    ensures (forall q :: 0 <= q ==> !OccursAt(doc, KeyPattern("allFiles"), q)) ==>
      ParsedIndexAsWritten(doc).allFiles.None? && ParsedIndexAsWritten(doc).totalFiles == 0
    ensures (forall q :: 0 <= q ==> !OccursAt(doc, KeyPattern("musicFolders"), q)) ==>
      ParsedIndexAsWritten(doc).folders.None? && ParsedIndexAsWritten(doc).folderCount == 0
  {
    ValueAtKey(doc, "version");
    ValueAtKey(doc, "allFiles");
    ValueAtKey(doc, "musicFolders");
  }

  /** Missing keys in a file object give name `unknown` and an empty path. */
  lemma EntryDefaults(obj: string)
    ensures (forall q :: 0 <= q ==> !OccursAt(obj, KeyPattern("name"), q)) ==> EntryOf(obj).name == "unknown"
    ensures (forall q :: 0 <= q ==> !OccursAt(obj, KeyPattern("path"), q)) ==> EntryOf(obj).path == ""
  {
    ValueAtKey(obj, "name");
    ValueAtKey(obj, "path");
  }

  /** How index.json writes a file object's body. */
  function EntryFields(e: FileEntry): seq<Field> {
    [Field("name", e.name), Field("path", e.path)]
  }

  /** A name or path the record holds whole: no quote or brace, and short enough for its array. */
  predicate Storable(t: string) {
    Plain(t) && |t| <= NAME_CAP - 1
  }

  /** Parsing a written file object gives back the entry. */
  lemma EntryRoundTrip(e: FileEntry)
    requires Storable(e.name) && Storable(e.path)
    ensures EntryOf(Record(EntryFields(e))) == e
  {
    var fields := EntryFields(e);
    assert Word("name") && Word("path");
    RecordStringValue(fields, "name");
    RecordStringValue(fields, "path");
  }

  /** The bodies index.json writes for a list of entries. */
  function EntryBodies(entries: seq<FileEntry>): (r: seq<string>)
    ensures |r| == |entries|
  {
    seq(|entries|, i requires 0 <= i < |entries| => FieldsText(EntryFields(entries[i])))
  }

  /** Written entries hold no brace. */
  lemma EntryBodiesBraceFree(entries: seq<FileEntry>)
    requires forall i :: 0 <= i < |entries| ==> Storable(entries[i].name) && Storable(entries[i].path)
    ensures BraceFree(EntryBodies(entries))
  {
    var bodies := EntryBodies(entries);
    forall n | 0 <= n < |bodies|
      ensures forall k :: 0 <= k < |bodies[n]| ==> bodies[n][k] != '{' && bodies[n][k] != '}'
    {
      assert Word("name") && Word("path");
      RecordBraceFree(EntryFields(entries[n]));
    }
  }

  /** The written entries parse back one by one. */
  lemma ParsedEntries(entries: seq<FileEntry>)
    requires forall i :: 0 <= i < |entries| ==> Storable(entries[i].name) && Storable(entries[i].path)
    ensures Parsed(EntryBodies(entries), EntryOf) == seq(|entries|, i requires 0 <= i < |entries| => Set(entries[i]))
  {
    var bodies := EntryBodies(entries);
    forall i | 0 <= i < |entries|
      ensures Parsed(bodies, EntryOf)[i] == Set(entries[i])
    {
      ParsedAt(bodies, EntryOf, i);
      EntryRoundTrip(entries[i]);
    }
  }

  /** A file array written from `entries` and closed by `]` is read back entry by entry. */
  lemma EntriesOfElements(s: string, a: nat, entries: seq<FileEntry>)
    requires forall i :: 0 <= i < |entries| ==> Storable(entries[i].name) && Storable(entries[i].path)
    requires var t := Elements(EntryBodies(entries));
      a + |t| + 1 < |s| && s[a] == '[' && s[a + 1..a + 1 + |t|] == t && s[a + 1 + |t|] == ']'
    ensures ArraySize(s, a) == |entries|
    ensures EntriesAt(s, a) == seq(|entries|, i requires 0 <= i < |entries| => Set(entries[i]))
  {
    EntryBodiesBraceFree(entries);
    FlatEntrySlots(s, a, EntryBodies(entries));
    ParsedEntries(entries);
  }

  /** A file array of brace-free objects closed by `]` is read one entry per object. */
  lemma FlatEntrySlots(s: string, a: nat, bodies: seq<string>)
    requires BraceFree(bodies)
    requires var t := Elements(bodies);
      a + |t| + 1 < |s| && s[a] == '[' && s[a + 1..a + 1 + |t|] == t && s[a + 1 + |t|] == ']'
    ensures ArraySize(s, a) == |bodies|
    ensures EntriesAt(s, a) == Parsed(bodies, EntryOf)
  {
    BraceFreeWalkable(bodies, FirstClose);
    ArraySizeOfElements(s, a, bodies);
    hide Fill, Parsed, Elements, EntryOf, ObjectEnd, SizeFrom, Walkable, BraceFree;
    FillElements(s, a + 1, a + 1, 0, Blank(|bodies|), bodies, EntryOf, FirstClose, Stay);
    assert Blank<FileEntry>(|bodies|)[..0] == [];
  }

  /**
   * An `allFiles` array written from `entries` parses back to exactly those entries, in
   * order, and `totalFiles` becomes their number.
   */
  lemma AllFilesRoundTrip(doc: string, entries: seq<FileEntry>)
    requires forall i :: 0 <= i < |entries| ==> Storable(entries[i].name) && Storable(entries[i].path)
    requires var a, t := ArrayAt(doc, "allFiles"), Elements(EntryBodies(entries));
      a != -1 && a + |t| + 1 < |doc| && doc[a + 1..a + 1 + |t|] == t && doc[a + 1 + |t|] == ']'
    ensures ParsedIndexAsWritten(doc).allFiles == Some(seq(|entries|, i requires 0 <= i < |entries| => Set(entries[i])))
    ensures ParsedIndexAsWritten(doc).totalFiles == |entries|
  {
    ArrayAtSpec(doc, "allFiles");
    EntriesOfElements(doc, ArrayAt(doc, "allFiles"), entries);
  }

  /**
   * With the corrected loop, a `musicFolders` array of whole objects gives one folder
   * per object, in order, however deeply each folder nests its own arrays.
   */
  lemma FoldersWalk(doc: string, bodies: seq<string>)
    requires AllWhole(bodies)
    requires var m, t := ArrayAt(doc, "musicFolders"), Elements(bodies);
      m != -1 && m + |t| + 1 < |doc| && doc[m + 1..m + 1 + |t|] == t && doc[m + 1 + |t|] == ']'
    ensures ParsedIndex(doc).folders == Some(Parsed(bodies, FolderOf))
    ensures ParsedIndex(doc).folderCount == |bodies|
  {
    var m := ArrayAt(doc, "musicFolders");
    ArrayAtSpec(doc, "musicFolders");
    WholeFolderSlots(doc, m, bodies);
    hide StringOr, EntriesAt, FolderSlots, Parsed, Elements, AllWhole;
    assert IndexWith(doc, WholeObject).folders == Some(FolderSlots(doc, m, WholeObject));
  }

  /** Moving past whole objects walks an array of whole folder objects one folder per object. */
  lemma WholeFolderSlots(doc: string, m: nat, bodies: seq<string>)
    requires AllWhole(bodies)
    requires var t := Elements(bodies);
      m + |t| + 1 < |doc| && doc[m] == '[' && doc[m + 1..m + 1 + |t|] == t && doc[m + 1 + |t|] == ']'
    ensures ArraySize(doc, m) == |bodies|
    ensures FolderSlots(doc, m, WholeObject) == Parsed(bodies, FolderOf)
  {
    ArraySizeOfElements(doc, m, bodies);
    hide Fill, Parsed, Elements, ObjectEnd, SizeFrom, FolderOf;
    FillElements(doc, m + 1, m + 1, 0, Blank(|bodies|), bodies, FolderOf, WholeObject, Stay);
    assert Blank<Folder>(|bodies|)[..0] == [];
  }

  /**
   * Folders without nested braces (no `files` array, say) are read the same by both
   * loops: one folder per object, in order.
   */
  lemma FlatFoldersAgree(doc: string, bodies: seq<string>)
    requires BraceFree(bodies)
    requires var m, t := ArrayAt(doc, "musicFolders"), Elements(bodies);
      m != -1 && m + |t| + 1 < |doc| && doc[m + 1..m + 1 + |t|] == t && doc[m + 1 + |t|] == ']'
    ensures ParsedIndexAsWritten(doc).folders == Some(Parsed(bodies, FolderOf))
    ensures ParsedIndexAsWritten(doc) == ParsedIndex(doc)
  {
    var m := ArrayAt(doc, "musicFolders");
    FlatFolderSlots(doc, m, bodies, FirstClose);
    FlatFolderSlots(doc, m, bodies, WholeObject);
    assert IndexWith(doc, FirstClose).folders == Some(FolderSlots(doc, m, FirstClose));
    assert IndexWith(doc, WholeObject).folders == Some(FolderSlots(doc, m, WholeObject));
  }

  /** Either cursor move walks an array of brace-free folder objects one folder per object. */
  lemma FlatFolderSlots(doc: string, m: nat, bodies: seq<string>, how: Advance)
    requires BraceFree(bodies) && how != Stay
    requires var t := Elements(bodies);
      m + |t| + 1 < |doc| && doc[m] == '[' && doc[m + 1..m + 1 + |t|] == t && doc[m + 1 + |t|] == ']'
    ensures FolderSlots(doc, m, how) == Parsed(bodies, FolderOf)
  {
    BraceFreeWalkable(bodies, how);
    ArraySizeOfElements(doc, m, bodies);
    hide Fill, Parsed, Elements, ObjectEnd, SizeFrom, FolderOf, Walkable, BraceFree;
    FillElements(doc, m + 1, m + 1, 0, Blank(|bodies|), bodies, FolderOf, how, Stay);
    assert Blank<Folder>(|bodies|)[..0] == [];
  }


  /** Two folders, the first with two files: `[{"files":[{},{}]},{"name":"B"}]`. */
  function TwoFolders(): (s: string)
    ensures |s| == 32
  {
    "[{\"files\":[{},{}]},{\"name\":\"B\"}]"
  }

  /** The characters of `TwoFolders` that the loops stop at or run over. */
  predicate TwoFoldersShape(s: string) {
    |s| == 32 &&
    s[1] == '{' && s[11] == '{' && s[12] == '}' && s[13] == ',' && s[14] == '{' && s[15] == '}' &&
    s[16] == ']' && s[17] == '}' && s[18] == ',' && s[19] == '{' && s[30] == '}' && s[31] == ']' &&
    (forall k :: 2 <= k < 11 ==> s[k] != '{' && s[k] != '}') &&
    (forall k :: 20 <= k < 30 ==> s[k] != '{' && s[k] != '}') &&
    s[14..16] == Record([]) && s[19..31] == Record([Field("name", "B")])
  }

  lemma TwoFoldersChars()
    ensures TwoFoldersShape(TwoFolders())
  {
    hide TwoFolders;
    TwoFoldersStops();
    TwoFoldersRuns();
    TwoFoldersSlices();
  }

  lemma TwoFoldersStops()
    ensures var s := TwoFolders();
      (|s| == 32 &&
       s[1] == '{' && s[11] == '{' && s[12] == '}' && s[13] == ',' && s[14] == '{' && s[15] == '}' &&
       s[16] == ']' && s[17] == '}' && s[18] == ',' && s[19] == '{' && s[30] == '}' && s[31] == ']')
  {
  }

  lemma TwoFoldersRuns()
    ensures var s := TwoFolders(); forall k :: 2 <= k < 11 ==> s[k] != '{' && s[k] != '}'
    ensures var s := TwoFolders(); forall k :: 20 <= k < 30 ==> s[k] != '{' && s[k] != '}'
  {
  }

  lemma TwoFoldersSlices()
    ensures TwoFolders()[14..16] == Record([])
    ensures TwoFolders()[19..31] == Record([Field("name", "B")])
  {
    assert TwoFolders()[14..16] == "{}";
    TwoFoldersNamed();
  }

  lemma TwoFoldersNamed()
    ensures TwoFolders()[19..31] == Record([Field("name", "B")])
  {
    var named := "{\"name\":\"B\"}";
    assert FieldText(Field("name", "B")) == "\"name\":\"B\"";
    forall k | 0 <= k < 12
      ensures TwoFolders()[19..31][k] == named[k]
    {
    }
    assert TwoFolders()[19..31] == named;
  }

  /** Where brace counting ends for the three objects the loops extract. */
  lemma TwoFoldersBraces(s: string)
    requires TwoFoldersShape(s)
    ensures ObjectEnd(s, 2, 1) == 18
    ensures ObjectEnd(s, 15, 1) == 16
    ensures ObjectEnd(s, 20, 1) == 31
  {
    ObjectEndSkipsBody(s, 2, 11, 1);
    assert ObjectEnd(s, 11, 1) == ObjectEnd(s, 12, 2) == ObjectEnd(s, 13, 1) == ObjectEnd(s, 14, 1);
    assert ObjectEnd(s, 14, 1) == ObjectEnd(s, 15, 2) == ObjectEnd(s, 16, 1) == ObjectEnd(s, 17, 1);
    assert ObjectEnd(s, 17, 1) == ObjectEnd(s, 18, 0) == 18;
    assert ObjectEnd(s, 15, 1) == ObjectEnd(s, 16, 0) == 16;
    ObjectEndSkipsBody(s, 20, 30, 1);
    assert ObjectEnd(s, 30, 1) == ObjectEnd(s, 31, 0) == 31;
  }

  /** `{}` is a folder with the default name and no files; `{"name":"B"}` is folder `B` without files. */
  lemma TwoFoldersParts()
    ensures FolderOf(Record([])) == Folder("unknown", None, 0)
    ensures FolderOf(Record([Field("name", "B")])) == Folder("B", None, 0)
  {
    assert Word("name") && Word("files");
    RecordStringValue([], "name");
    RecordKeyAbsent([], "files");
    RecordStringValue([Field("name", "B")], "name");
    RecordKeyAbsent([Field("name", "B")], "files");
  }

  /** The rounds of the loop as written. */
  lemma TwoFoldersRoundsAsWritten(s: string)
    requires TwoFoldersShape(s)
    ensures RoundAt(s, 1, FolderOf, FirstClose, Stay) == Next(Some(FolderOf(s[1..18])), 13)
    ensures RoundAt(s, 13, FolderOf, FirstClose, Stay) == Next(Some(FolderOf(Record([]))), 16)
  {
    TwoFoldersBraces(s);
    hide FolderOf, Record;
    assert NextBrace(s, 1) == 1 && SkipWhile(s, 1, IsWs) == 1;
    assert NextBrace(s, 13) == 14 && SkipWhile(s, 14, IsWs) == 14;
    SkipWhileRun(s, 1, 12, NotClose);
    assert PastFirstClose(s, 1) == 13;
    assert PastFirstClose(s, 14) == 16;
  }

  /** The rounds of the corrected loop. */
  lemma TwoFoldersRounds(s: string)
    requires TwoFoldersShape(s)
    ensures RoundAt(s, 1, FolderOf, WholeObject, Stay) == Next(Some(FolderOf(s[1..18])), 18)
    ensures RoundAt(s, 18, FolderOf, WholeObject, Stay) == Next(Some(FolderOf(Record([Field("name", "B")]))), 31)
  {
    TwoFoldersBraces(s);
    hide FolderOf, Record;
    assert NextBrace(s, 1) == 1 && SkipWhile(s, 1, IsWs) == 1;
    assert NextBrace(s, 18) == 19 && SkipWhile(s, 19, IsWs) == 19;
  }

  /** Outside any object, `{` opens one, `,` is passed over and `]` ends the count. */
  lemma SizeOutside(s: seq<char>, i: nat, count: nat)
    requires i < |s|
    ensures s[i] == '{' ==> SizeFrom(s, i, count, 0, false) == SizeFrom(s, i + 1, count, 1, true)
    ensures s[i] == ',' ==> SizeFrom(s, i, count, 0, false) == SizeFrom(s, i + 1, count, 0, false)
    ensures s[i] == ']' ==> SizeFrom(s, i, count, 0, false) == count
  {
  }

  /** The array holds two folder objects. */
  lemma TwoFoldersSize(s: string)
    requires TwoFoldersShape(s)
    ensures ArraySize(s, 0) == 2
  {
    TwoFoldersBraces(s);
    SizeSkipsObject(s, 2, 0, 1);
    SizeSkipsObject(s, 20, 1, 1);
    SizeOutside(s, 1, 0);
    SizeOutside(s, 18, 1);
    SizeOutside(s, 19, 1);
    SizeOutside(s, 31, 2);
  }

  /** The two loops on any text of the shape of `TwoFolders`. */
  lemma TwoFoldersWalk(s: string)
    requires TwoFoldersShape(s)
    ensures ArraySize(s, 0) == 2
    ensures FoldersAsWritten(s, 0)[1] == Set(Folder("unknown", None, 0))
    ensures Folders(s, 0)[1] == Set(Folder("B", None, 0))
  {
    TwoFoldersSize(s);
    TwoFoldersParts();
    TwoFoldersRoundsAsWritten(s);
    TwoFoldersRounds(s);
    hide FolderOf, RoundAt, Record, TwoFoldersShape;
    var b := Blank<Folder>(2);
    var x := FolderOf(s[1..18]);
    FillStep(s, 1, 0, b, FolderOf, FirstClose, Stay, x, 13);
    FillStep(s, 13, 1, b[0 := Set(x)], FolderOf, FirstClose, Stay, FolderOf(Record([])), 16);
    FillStep(s, 1, 0, b, FolderOf, WholeObject, Stay, x, 18);
    FillStep(s, 18, 1, b[0 := Set(x)], FolderOf, WholeObject, Stay, FolderOf(Record([Field("name", "B")])), 31);
  }

  /**
   * On `TwoFolders`, the loop as written reads the first folder's second file as the
   * second folder and never sees folder `B`; the corrected loop reads `B`.
   */
  lemma FolderCursorAsWritten()
    ensures ArraySize(TwoFolders(), 0) == 2
    ensures FoldersAsWritten(TwoFolders(), 0)[1] == Set(Folder("unknown", None, 0))
    ensures Folders(TwoFolders(), 0)[1] == Set(Folder("B", None, 0))
  {
    TwoFoldersChars();
    TwoFoldersWalk(TwoFolders());
  }

  // ------------------------------------------------------------ the index object

  /** The caller's `index_file_t`, filled in place. */
  class IndexFile {
    var version: string
    var totalFiles: int
    var allFiles: array?<Slot<FileEntry>>
    var musicFolders: array?<Slot<Folder>>
    var folderCount: int

    constructor ()
      ensures allFiles == null && musicFolders == null
    {
      version := "";
      totalFiles := 0;
      allFiles := null;
      musicFolders := null;
      folderCount := 0;
    }

    /** The record's contents, arrays read through their pointers. */
    function Value(): Index
      reads this, allFiles, musicFolders
    {
      Index(version, totalFiles,
            if allFiles == null then None else Some(allFiles[..]),
            if musicFolders == null then None else Some(musicFolders[..]),
            folderCount)
    }

    /**
     * `json_parse_index` on the file `path` of the card `disk`. A NULL path is an
     * invalid argument; a missing or empty file fails; any allocation may fail with
     * `NoMem` (the record is then left partly filled). On success the record is the
     * parse of the file's text up to its first NUL.
     */
    method Parse(path: Option<string>, disk: map<string, seq<char>>) returns (r: ErrCode)
      modifies this
      ensures path.None? ==> r == InvalidArg
      ensures path.Some? && (path.value !in disk || |disk[path.value]| == 0) ==> r == EspFail
      ensures path.Some? && path.value in disk && |disk[path.value]| > 0 ==> r == EspOk || r == NoMem
      ensures r == EspOk ==> path.Some? && path.value in disk && Value() == ParsedIndexAsWritten(CStr(disk[path.value]))
      ensures r == EspOk ==> (allFiles == null || fresh(allFiles)) && (musicFolders == null || fresh(musicFolders))
    {
      if path.None? {
        return InvalidArg;
      }
      if path.value !in disk || |disk[path.value]| == 0 {
        return EspFail;
      }
      var ok: bool :| true;
      if !ok {
        return NoMem;
      }
      r := Load(CStr(disk[path.value]));
    }

    /** Filling the record from the document text once it is in memory. */
    method Load(doc: string) returns (r: ErrCode)
      modifies this
      ensures r == EspOk || r == NoMem
      ensures r == EspOk ==> Value() == ParsedIndexAsWritten(doc)
      ensures r == EspOk ==> (allFiles == null || fresh(allFiles)) && (musicFolders == null || fresh(musicFolders))
    {
      var v := ExtractString(doc, "version");
      version := if v.Some? then Truncate(v.value, VERSION_CAP) else "1.0";
      totalFiles := ExtractInt(doc, "totalFiles");
      var ok := LoadFiles(doc);
      if !ok {
        return NoMem;
      }
      ok := LoadFolders(doc);
      if !ok {
        return NoMem;
      }
      return EspOk;
    }

    /** The `allFiles` part; `totalFiles` is overwritten by the array's size, or 0. */
    method LoadFiles(doc: string) returns (ok: bool)
      modifies this
      ensures version == old(version) && musicFolders == old(musicFolders) && folderCount == old(folderCount)
      ensures ok ==> totalFiles == ParsedIndexAsWritten(doc).totalFiles
      ensures ok ==> (allFiles == null <==> ParsedIndexAsWritten(doc).allFiles.None?)
      ensures ok && allFiles != null ==> fresh(allFiles) && ParsedIndexAsWritten(doc).allFiles == Some(allFiles[..])
    {
      hide StringValue, IntValue, ArraySize, EntriesAt, FolderSlots, StringOr;
      var fa := FindArray(doc, "allFiles");
      if fa != -1 {
        var n := GetArraySize(doc, fa);
        totalFiles := n;
        var files := ParseFiles(doc, fa);
        if files == null {
          return false;
        }
        allFiles := files;
      } else {
        allFiles := null;
        totalFiles := 0;
      }
      return true;
    }

    /** The `musicFolders` part and its count. */
    method LoadFolders(doc: string) returns (ok: bool)
      modifies this
      ensures version == old(version) && allFiles == old(allFiles) && totalFiles == old(totalFiles)
      ensures ok ==> folderCount == ParsedIndexAsWritten(doc).folderCount
      ensures ok ==> (musicFolders == null <==> ParsedIndexAsWritten(doc).folders.None?)
      ensures ok && musicFolders != null ==> fresh(musicFolders) && ParsedIndexAsWritten(doc).folders == Some(musicFolders[..])
    {
      hide StringValue, IntValue, ArraySize, EntriesAt, FolderSlots, StringOr;
      var ma := FindArray(doc, "musicFolders");
      if ma != -1 {
        var n := GetArraySize(doc, ma);
        folderCount := n;
        var folders := ParseFolders(doc, ma);
        if folders == null {
          return false;
        }
        musicFolders := folders;
      } else {
        musicFolders := null;
        folderCount := 0;
      }
      return true;
    }
  }

  /** The `allFiles` array: allocated (NULL when that fails), then filled. */
  method ParseFiles(doc: string, a: nat) returns (files: array?<Slot<FileEntry>>)
    requires a < |doc|
    ensures files != null ==> fresh(files) && files[..] == EntriesAt(doc, a)
  {
    var n := GetArraySize(doc, a);
    var ok: bool :| true;
    if !ok {
      return null;
    }
    files := new Slot<FileEntry>[n](_ => Unset);
    assert files[..] == Blank(n);
    FillSlots(doc, a, files, EntryOf, FirstClose, Stay);
  }

  /** The `musicFolders` array: allocated (NULL when that or a folder's file array fails), then filled. */
  method ParseFolders(doc: string, m: nat) returns (folders: array?<Slot<Folder>>)
    requires m < |doc|
    ensures folders != null ==> fresh(folders) && folders[..] == FoldersAsWritten(doc, m)
  {
    var n := GetArraySize(doc, m);
    var ok: bool :| true;
    if !ok {
      return null;
    }
    folders := new Slot<Folder>[n](_ => Unset);
    assert folders[..] == Blank(n);
    ok := FillFolders(doc, m, folders);
    if !ok {
      return null;
    }
  }

  /** One folder object; the allocation of its file array may fail. */
  method ParseFolder(obj: string) returns (r: Result<Folder>)
    ensures r.Ok? ==> r.value == FolderOf(obj)
    ensures r.Err? ==> r.code == NoMem
  {
    hide StringValue, ArraySize, Fill, ValueAt, Truncate;
    var name := ExtractString(obj, "name");
    var folderName := if name.Some? then Truncate(name.value, NAME_CAP) else "unknown";
    var a := FindArray(obj, "files");
    if a == -1 {
      return Ok(Folder(folderName, None, 0));
    }
    var n := GetArraySize(obj, a);
    var ok: bool :| true;
    if !ok {
      return Err(NoMem);
    }
    var files := new Slot<FileEntry>[n](_ => Unset);
    assert files[..] == Blank(n);
    FillSlots(obj, a, files, EntryOf, FirstClose, Stay);
    return Ok(Folder(folderName, Some(files[..]), n));
  }

  /**
   * The folder loop as written, writing the folder array in place: after each folder the
   * cursor moves past the first `}` only.
   */
  method FillFolders(s: string, m: nat, folders: array<Slot<Folder>>) returns (ok: bool)
    requires m < |s|
    modifies folders
    ensures ok ==> folders[..] == Fill(s, m + 1, 0, old(folders[..]), FolderOf, FirstClose, Stay)
  {
    var pos: nat := m + 1;
    var i := 0;
    while i < folders.Length
      invariant 0 <= i <= folders.Length && pos <= |s|
      invariant Fill(s, pos, i, folders[..], FolderOf, FirstClose, Stay) ==
                Fill(s, m + 1, 0, old(folders[..]), FolderOf, FirstClose, Stay)
    {
      var p := Skip(s, pos, NotOpen);
      if p == |s| {
        return true;
      }
      var obj := ExtractObject(s, p);
      if obj.Some? {
        var f := ParseFolder(obj.value);
        if f.Err? {
          return false;
        }
        folders[i] := Set(f.value);
        pos := AdvanceCursor(s, p, FirstClose);
      }
      i := i + 1;
    }
    return true;
  }

  /** `json_free_index`: a NULL record is an invalid argument; otherwise both arrays are released. */
  method FreeIndex(index: IndexFile?) returns (r: ErrCode)
    modifies index
    ensures index == null ==> r == InvalidArg
    ensures index != null ==> r == EspOk && index.allFiles == null && index.musicFolders == null
    ensures index != null ==> index.version == old(index.version) && index.totalFiles == old(index.totalFiles)
    ensures index != null ==> index.folderCount == old(index.folderCount)
  {
    if index == null {
      return InvalidArg;
    }
    index.allFiles := null;
    index.musicFolders := null;
    return EspOk;
  }

  // ------------------------------------------------------------ json_get_full_path

  /**
   * `json_get_full_path`: `mount + "/ESP32_MUSIC/" + relative` as `snprintf` writes it
   * into a buffer of `maxLen` characters; NULL arguments are invalid. With `maxLen` 0
   * the buffer is left as it was.
   */
  function FullPath(mount: string, relative: Option<string>, buffer: Option<string>, maxLen: nat): (r: Result<string>)
    ensures relative.None? || buffer.None? <==> r == Err(InvalidArg)
    ensures r.Ok? && maxLen > 0 ==>
      var full := mount + MUSIC_DIR + "/" + relative.value;
      |r.value| < maxLen && |r.value| <= |full| && r.value == full[..|r.value|] && (|full| < maxLen ==> r.value == full)
  {
    if relative.None? || buffer.None? then Err(InvalidArg)
    else if maxLen == 0 then Ok(buffer.value)
    else Ok(Truncate(mount + MUSIC_DIR + "/" + relative.value, maxLen))
  }

  /** The example the parser's test checks. */
  lemma FullPathExample()
    ensures FullPath("/test", Some("Pop/song1.pcm"), Some(""), 256) == Ok("/test/ESP32_MUSIC/Pop/song1.pcm")
  {
    var full := "/test" + MUSIC_DIR + "/" + "Pop/song1.pcm";
    assert full == "/test/ESP32_MUSIC/Pop/song1.pcm";
    assert |full| == 31;
  }
}
