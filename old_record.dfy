/**
 * The record of the earlier parser generation (`json_parser_old.c`): file entries carry
 * song metadata and audio parameters besides name and path. The header that declared
 * this layout is not part of this model, so the capacities of its character arrays are
 * a parameter (`Sizes`).
 */
module OldRecord {
  import opened Esp
  import opened Search
  import opened JsonText
  import opened JsonRecord
  import opened ArrayWalk

  /** Capacities (in `char`s, terminator included) of the record's character arrays. */
  datatype Sizes = Sizes(version: nat, name: nat, path: nat, song: nat, album: nat, artist: nat) {
    predicate Valid() {
      version >= 1 && name >= 1 && path >= 1 && song >= 1 && album >= 1 && artist >= 1
    }
  }

  datatype Entry = Entry(name: string, path: string, song: string, album: string, artist: string,
                         sampleRate: int, bitDepth: int, channels: int, folderIndex: int)

  datatype Folder = Folder(name: string, files: Option<seq<Slot<Entry>>>, fileCount: int)

  datatype Index = Index(version: string, totalFiles: int, allFiles: Option<seq<Slot<Entry>>>,
                         folders: Option<seq<Slot<Folder>>>, folderCount: int)

  /** An entry cleared by `memset(…, 0, …)`. */
  function Zero(): Entry {
    Entry("", "", "", "", "", 0, 0, 0, 0)
  }

  /** A freshly allocated array of `n` cells. */
  function Blank<T>(n: nat): (r: seq<Slot<T>>)
    ensures |r| == n && forall i :: 0 <= i < n ==> r[i] == Unset
  {
    seq(n, _ => Unset)
  }

  /**
   * A string field of a cleared struct: the value of `key` copied with `strncpy` into
   * `char[cap]`, or the default copied the same way when the key gives no string.
   */
  function StringOr(obj: string, key: string, cap: nat, default: string): string
    requires cap >= 1
  {
    match StringValue(obj, key)
    case Some(v) => Truncate(v, cap)
    case None => Truncate(default, cap)
  }

  /**
   * `parse_file_entry`: string fields with their defaults, and the four numbers from
   * `extract_int`, which overwrites the 44100/16/2/0 set just before (an absent number
   * reads as 0).
   */
  function EntryOf(z: Sizes, obj: string): Entry
    requires z.Valid()
  {
    Entry(StringOr(obj, "name", z.name, "unknown"), StringOr(obj, "path", z.path, ""),
          StringOr(obj, "song", z.song, "Unknown Song"), StringOr(obj, "album", z.album, "Unknown Album"),
          StringOr(obj, "artist", z.artist, "Unknown Artist"),
          IntValue(obj, "sampleRate"), IntValue(obj, "bitDepth"), IntValue(obj, "channels"),
          IntValue(obj, "folderIndex"))
  }

  /** No `"key":` anywhere in `s`. */
  ghost predicate Absent(s: string, key: string) {
    forall q :: 0 <= q ==> !OccursAt(s, KeyPattern(key), q)
  }

  /** A missing string key gives its default, cut to the field's capacity. */
  lemma StringDefault(obj: string, key: string, cap: nat, default: string)
    requires cap >= 1 && Absent(obj, key)
    ensures StringOr(obj, key, cap, default) == Truncate(default, cap)
  {
    ValueAtKey(obj, key);
  }

  /**
   * The defaults of `parse_file_entry`: `unknown`, empty path, `Unknown Song`,
   * `Unknown Album`, `Unknown Artist`; a missing number is 0, not the default set
   * before it.
   */
  lemma EntryDefaults(z: Sizes, obj: string)
    requires z.Valid()
    ensures Absent(obj, "name") ==> EntryOf(z, obj).name == Truncate("unknown", z.name)
    ensures Absent(obj, "path") ==> EntryOf(z, obj).path == ""
    ensures Absent(obj, "song") ==> EntryOf(z, obj).song == Truncate("Unknown Song", z.song)
    ensures Absent(obj, "album") ==> EntryOf(z, obj).album == Truncate("Unknown Album", z.album)
    ensures Absent(obj, "artist") ==> EntryOf(z, obj).artist == Truncate("Unknown Artist", z.artist)
    ensures Absent(obj, "sampleRate") ==> EntryOf(z, obj).sampleRate == 0
    ensures Absent(obj, "bitDepth") ==> EntryOf(z, obj).bitDepth == 0
    ensures Absent(obj, "channels") ==> EntryOf(z, obj).channels == 0
    ensures Absent(obj, "folderIndex") ==> EntryOf(z, obj).folderIndex == 0
  {
    if Absent(obj, "name") { StringDefault(obj, "name", z.name, "unknown"); }
    if Absent(obj, "path") { StringDefault(obj, "path", z.path, ""); }
    if Absent(obj, "song") { StringDefault(obj, "song", z.song, "Unknown Song"); }
    if Absent(obj, "album") { StringDefault(obj, "album", z.album, "Unknown Album"); }
    if Absent(obj, "artist") { StringDefault(obj, "artist", z.artist, "Unknown Artist"); }
    if Absent(obj, "sampleRate") { IntValueAbsent(obj, "sampleRate"); }
    if Absent(obj, "bitDepth") { IntValueAbsent(obj, "bitDepth"); }
    if Absent(obj, "channels") { IntValueAbsent(obj, "channels"); }
    if Absent(obj, "folderIndex") { IntValueAbsent(obj, "folderIndex"); }
  }

  /** The string fields of an entry as index.json writes them. */
  function StringFields(e: Entry): seq<Field> {
    [Field("name", e.name), Field("path", e.path), Field("song", e.song),
     Field("album", e.album), Field("artist", e.artist)]
  }

  /** Every string field fits its array and holds no quote or brace. */
  predicate Fits(z: Sizes, e: Entry) {
    Plain(e.name) && Plain(e.path) && Plain(e.song) && Plain(e.album) && Plain(e.artist) &&
    |e.name| < z.name && |e.path| < z.path && |e.song| < z.song && |e.album| < z.album && |e.artist| < z.artist
  }

  /** The lookup over five fields, spelt out. */
  lemma LookupFive(fields: seq<Field>, key: string)
    requires |fields| == 5
    ensures Lookup(fields, key) ==
      if fields[0].key == key then Some(fields[0].value)
      else if fields[1].key == key then Some(fields[1].value)
      else if fields[2].key == key then Some(fields[2].value)
      else if fields[3].key == key then Some(fields[3].value)
      else if fields[4].key == key then Some(fields[4].value)
      else None
  {
    var f1 := fields[1..];
    var f2 := f1[1..];
    var f3 := f2[1..];
    var f4 := f3[1..];
    assert f1[0] == fields[1] && f2[0] == fields[2] && f3[0] == fields[3] && f4[0] == fields[4];
    assert Lookup(f4[1..], key) == None;
    assert Lookup(f4, key) == if fields[4].key == key then Some(fields[4].value) else None;
    assert Lookup(f3, key) == if fields[3].key == key then Some(fields[3].value) else Lookup(f4, key);
    assert Lookup(f2, key) == if fields[2].key == key then Some(fields[2].value) else Lookup(f3, key);
    assert Lookup(f1, key) == if fields[1].key == key then Some(fields[1].value) else Lookup(f2, key);
  }

  /** Each string key finds its own field; the number keys find none. */
  lemma StringFieldsLookup(e: Entry)
    ensures var f := StringFields(e);
      Lookup(f, "name") == Some(e.name) && Lookup(f, "path") == Some(e.path) &&
      Lookup(f, "song") == Some(e.song) && Lookup(f, "album") == Some(e.album) &&
      Lookup(f, "artist") == Some(e.artist)
    ensures var f := StringFields(e);
      Lookup(f, "sampleRate").None? && Lookup(f, "bitDepth").None? &&
      Lookup(f, "channels").None? && Lookup(f, "folderIndex").None?
  {
    StringKeysLookup(e);
    NumberKeysLookup(e);
  }

  lemma StringKeysLookup(e: Entry)
    ensures var f := StringFields(e);
      Lookup(f, "name") == Some(e.name) && Lookup(f, "path") == Some(e.path) &&
      Lookup(f, "song") == Some(e.song) && Lookup(f, "album") == Some(e.album) &&
      Lookup(f, "artist") == Some(e.artist)
  {
    var f := StringFields(e);
    assert |"name"| == 4 && |"path"| == 4 && |"song"| == 4 && |"album"| == 5 && |"artist"| == 6;
    assert "name" != "path" && "name" != "song" && "path" != "song";
    LookupFive(f, "name");
    LookupFive(f, "path");
    LookupFive(f, "song");
    LookupFive(f, "album");
    LookupFive(f, "artist");
  }

  lemma NumberKeysLookup(e: Entry)
    ensures var f := StringFields(e);
      Lookup(f, "sampleRate").None? && Lookup(f, "bitDepth").None? &&
      Lookup(f, "channels").None? && Lookup(f, "folderIndex").None?
  {
    var f := StringFields(e);
    assert |"sampleRate"| == 10 && |"bitDepth"| == 8 && |"channels"| == 8 && |"folderIndex"| == 11;
    assert |"name"| == 4 && |"path"| == 4 && |"song"| == 4 && |"album"| == 5 && |"artist"| == 6;
    assert "bitDepth" != "channels";
    LookupFive(f, "sampleRate");
    LookupFive(f, "bitDepth");
    LookupFive(f, "channels");
    LookupFive(f, "folderIndex");
  }

  /**
   * An object written with the five string fields of `e` and no numbers parses back to
   * `e`'s strings with all four numbers 0.
   */
  lemma EntryStringsRoundTrip(z: Sizes, e: Entry)
    requires z.Valid() && Fits(z, e)
    ensures EntryOf(z, Record(StringFields(e))) == e.(sampleRate := 0, bitDepth := 0, channels := 0, folderIndex := 0)
  {
    var fields := StringFields(e);
    assert WellFormed(fields) by {
      assert Word("name") && Word("path") && Word("song") && Word("album") && Word("artist");
    }
    StringFieldsLookup(e);
    StringsRead(z, e);
    NumbersAbsent(fields);
  }

  /** The five strings are read back. */
  lemma StringsRead(z: Sizes, e: Entry)
    requires z.Valid() && Fits(z, e) && WellFormed(StringFields(e))
    requires var f := StringFields(e);
      Lookup(f, "name") == Some(e.name) && Lookup(f, "path") == Some(e.path) &&
      Lookup(f, "song") == Some(e.song) && Lookup(f, "album") == Some(e.album) &&
      Lookup(f, "artist") == Some(e.artist)
    ensures var obj := Record(StringFields(e));
      StringValue(obj, "name") == Some(e.name) && StringValue(obj, "path") == Some(e.path) &&
      StringValue(obj, "song") == Some(e.song) && StringValue(obj, "album") == Some(e.album) &&
      StringValue(obj, "artist") == Some(e.artist)
  {
    var fields := StringFields(e);
    assert Word("name") && Word("path") && Word("song") && Word("album") && Word("artist");
    hide StringFields, Lookup;
    RecordStringValue(fields, "name");
    RecordStringValue(fields, "path");
    RecordStringValue(fields, "song");
    RecordStringValue(fields, "album");
    RecordStringValue(fields, "artist");
  }

  lemma NumberKeys()
    ensures Word("sampleRate") && Word("bitDepth") && Word("channels") && Word("folderIndex")
  {
  }

  /** None of the four number keys is among the fields. */
  lemma NumbersAbsent(fields: seq<Field>)
    requires WellFormed(fields)
    requires Lookup(fields, "sampleRate").None? && Lookup(fields, "bitDepth").None?
    requires Lookup(fields, "channels").None? && Lookup(fields, "folderIndex").None?
    ensures IntValue(Record(fields), "sampleRate") == 0 && IntValue(Record(fields), "bitDepth") == 0
    ensures IntValue(Record(fields), "channels") == 0 && IntValue(Record(fields), "folderIndex") == 0
  {
    NumberKeys();
    hide Lookup, Atoi, ValueAt, Record, FieldsText, Word;
    RecordKeyAbsent(fields, "sampleRate");
    RecordKeyAbsent(fields, "bitDepth");
    RecordKeyAbsent(fields, "channels");
    RecordKeyAbsent(fields, "folderIndex");
  }

  /** The caller's index record, filled in place by the parsers. */
  class IndexRecord {
    var version: string
    var totalFiles: int
    var allFiles: array?<Slot<Entry>>
    var musicFolders: array?<Slot<Folder>>
    var folderCount: int

    constructor ()
      ensures Value() == Index("", 0, None, None, 0)
    {
      version := "";
      totalFiles := 0;
      allFiles := null;
      musicFolders := null;
      folderCount := 0;
    }

    /** The record's contents, arrays read through their pointers. */
    function Value(): Index
      reads this, allFiles, musicFolders
    {
      Index(version, totalFiles,
            if allFiles == null then None else Some(allFiles[..]),
            if musicFolders == null then None else Some(musicFolders[..]),
            folderCount)
    }

    /** `memset(index, 0, sizeof(index_file_t))`. */
    method Clear()
      modifies this
      ensures Value() == Index("", 0, None, None, 0)
    {
      version := "";
      totalFiles := 0;
      allFiles := null;
      musicFolders := null;
      folderCount := 0;
    }
  }
}
