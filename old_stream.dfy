/**
 * `parse_index_streaming` of `json_parser_old.c`: the file is read line by line (as
 * `fgets` with a 512-char buffer delivers it) into a 2048-char accumulation buffer;
 * whenever the buffer holds a whole file object inside the `allFiles` section, an entry
 * is taken from it and the buffer is cleared. The file array starts with 2 cells and
 * grows by 20 whenever it is full.
 */
module OldStream {
  import opened Esp
  import opened Search
  import opened JsonText
  import opened ArrayWalk
  import opened OldRecord

  /** `sizeof(buffer)`: `fgets` delivers at most 511 characters per call. */
  const LINE_CAP := 512
  /** `sizeof(accumulated)`. */
  const ACC_CAP := 2048
  /** Initial size of the file array. */
  const FIRST_FILES := 2
  /** Growth of the file array when it is full. */
  const GROW_STEP := 20

  /**
   * Where one `fgets` call reading at most `room` characters from position `i` stops:
   * just after the first newline, after `room` characters, or at the end of the file.
   */
  function LineEnd(s: seq<char>, i: nat, room: nat): (j: nat)
    requires i <= |s|
    ensures i <= j <= |s| && j <= i + room
    ensures 0 < room && i < |s| ==> i < j
    ensures forall k :: i <= k && k + 1 < j ==> s[k] != '\n'
    ensures j < i + room && j < |s| ==> j > i && s[j - 1] == '\n'
    decreases room
  {
    if i == |s| || room == 0 then i
    else if s[i] == '\n' then i + 1
    else LineEnd(s, i + 1, room - 1)
  }

  /** `strstr(s, pat) != NULL`. */
  predicate Contains(s: string, pat: string) {
    IndexOf(s, pat, 0, |s|) != -1
  }

  /**
   * The accumulation buffer after a line is added: cleared first when the sum would
   * reach `ACC_CAP - 1`, so the buffer and its terminator always fit.
   */
  function Append(acc: string, buf: string): (r: string)
    ensures |buf| < ACC_CAP - 1 ==> |r| < ACC_CAP - 1
    ensures r == acc + buf || r == buf
    ensures |acc| + |buf| < ACC_CAP - 1 ==> r == acc + buf
  {
    if |acc| + |buf| >= ACC_CAP - 1 then buf else acc + buf
  }

  /** `realloc` to `n` cells: the old cells kept, the new ones uninitialised. */
  function Grow<T>(slots: seq<Slot<T>>, n: nat): (r: seq<Slot<T>>)
    requires n >= |slots|
    ensures |r| == n && r[..|slots|] == slots
    ensures forall k :: |slots| <= k < n ==> r[k] == Unset
  {
    slots + Blank(n - |slots|)
  }

  /** The parser's locals between two lines. */
  datatype Stream = Stream(acc: string, inAll: bool, inFolders: bool, found: nat, total: int,
                           slots: seq<Slot<Entry>>)

  /** The state the loop keeps: the entries found fit the array, the buffer has room for a terminator. */
  predicate Inv(st: Stream) {
    st.found <= |st.slots| && |st.acc| < ACC_CAP - 1
  }

  /** The size `totalFiles` asks for: everything at once up to 100 files, else 50 more cells. */
  function NewMax(total: int, max: nat): (r: nat)
    requires total > max
    ensures r > max
  {
    if total > 100 then max + 50 else total
  }

  /** Step 1: add the line to the buffer. */
  function AppendPhase(st: Stream, buf: string): Stream {
    st.(acc := Append(st.acc, buf))
  }

  /** Step 2: a `"totalFiles":` in the buffer sets the total and may grow the array. */
  function TotalPhase(st: Stream): (r: Stream)
    ensures r.acc == st.acc && r.inAll == st.inAll && r.inFolders == st.inFolders && r.found == st.found
    ensures |r.slots| >= |st.slots| && r.slots[..|st.slots|] == st.slots
    ensures Contains(st.acc, "\"totalFiles\":") ==> r.total == IntValue(st.acc, "totalFiles")
    ensures !Contains(st.acc, "\"totalFiles\":") ==> r == st
  {
    if Contains(st.acc, "\"totalFiles\":") then
      var t := IntValue(st.acc, "totalFiles");
      if t > |st.slots| then st.(total := t, slots := Grow(st.slots, NewMax(t, |st.slots|)))
      else st.(total := t)
    else st
  }

  /**
   * Step 3: `"allFiles":` opens the file section; `"folders":` enters the folder section
   * for good and closes the file section until a later `"allFiles":`.
   */
  function SectionPhase(st: Stream): (r: Stream)
    ensures r.acc == st.acc && r.found == st.found && r.total == st.total && r.slots == st.slots
    ensures r.inFolders <==> st.inFolders || Contains(st.acc, "\"folders\":")
    ensures r.inAll <==> (st.inAll || Contains(st.acc, "\"allFiles\":")) && !Contains(st.acc, "\"folders\":")
  {
    var inAll := st.inAll || Contains(st.acc, "\"allFiles\":");
    if Contains(st.acc, "\"folders\":") then st.(inAll := false, inFolders := true)
    else st.(inAll := inAll)
  }

  /** The buffer looks like it holds a whole file object of the file section. */
  predicate Fires(st: Stream) {
    st.inAll && Contains(st.acc, "\"name\":") && Contains(st.acc, "\"path\":") &&
    Contains(st.acc, "\"song\":") && Contains(st.acc, "}")
  }

  /** A string field of a cleared entry that is left empty when the key gives no string. */
  function StringOrEmpty(t: string, key: string, cap: nat): string
    requires cap >= 1
  {
    match StringValue(t, key)
    case Some(v) => Truncate(v, cap)
    case None => ""
  }

  /** The entry taken from the buffer; there is one only when name, path and song are all found. */
  function StreamEntry(z: Sizes, t: string): (r: Option<Entry>)
    requires z.Valid()
  {
    var name, path, song := StringValue(t, "name"), StringValue(t, "path"), StringValue(t, "song");
    if name.Some? && path.Some? && song.Some? then
      Some(Entry(Truncate(name.value, z.name), Truncate(path.value, z.path), Truncate(song.value, z.song),
                 StringOrEmpty(t, "album", z.album), StringOrEmpty(t, "artist", z.artist),
                 IntValue(t, "sampleRate"), IntValue(t, "bitDepth"), IntValue(t, "channels"),
                 IntValue(t, "folderIndex")))
    else None
  }

  /** An entry is taken exactly when name, path and song are all extracted. */
  lemma StreamEntryIff(z: Sizes, t: string)
    requires z.Valid()
    ensures StreamEntry(z, t).Some? <==>
      StringValue(t, "name").Some? && StringValue(t, "path").Some? && StringValue(t, "song").Some?
    ensures StreamEntry(z, t).Some? ==>
      var e := StreamEntry(z, t).value;
      e.name == Truncate(StringValue(t, "name").value, z.name) &&
      e.path == Truncate(StringValue(t, "path").value, z.path) &&
      e.song == Truncate(StringValue(t, "song").value, z.song)
  {
  }

  /** The array with a cell at `found`: grown by `GROW_STEP` when it is full. */
  function Room<T>(slots: seq<Slot<T>>, found: nat): (r: seq<Slot<T>>)
    requires found <= |slots|
    ensures found < |r| && |slots| <= |r| && r[..|slots|] == slots
  {
    if found >= |slots| then Grow(slots, |slots| + GROW_STEP) else slots
  }

  /**
   * Step 4: when the buffer fires, the cell at `found` is cleared (the array first grown
   * by 20 if it is full), filled and counted if an entry can be taken, and the buffer
   * is cleared. Entries found before are never touched.
   */
  function EntryPhase(z: Sizes, st: Stream): (r: Stream)
    requires z.Valid() && st.found <= |st.slots|
    ensures r.found <= |r.slots| && |r.slots| >= |st.slots| && r.slots[..st.found] == st.slots[..st.found]
    ensures r.inAll == st.inAll && r.inFolders == st.inFolders && r.total == st.total
    ensures r.found == (if Fires(st) && StreamEntry(z, st.acc).Some? then st.found + 1 else st.found)
    ensures Fires(st) && StreamEntry(z, st.acc).Some? ==> r.slots[st.found] == Set(StreamEntry(z, st.acc).value)
    ensures Fires(st) ==> r.acc == ""
    ensures !Fires(st) ==> r == st
  {
    hide StreamEntry, Fires;
    if !Fires(st) then st
    else
      var slots := Room(st.slots, st.found);
      var e := StreamEntry(z, st.acc);
      st.(acc := "", found := if e.Some? then st.found + 1 else st.found,
          slots := slots[st.found := Set(if e.Some? then e.value else Zero())])
  }

  /** Step 5: a `],` inside a section clears the buffer and ends the file section. */
  function EndPhase(st: Stream): (r: Stream)
    ensures r.found == st.found && r.total == st.total && r.slots == st.slots && r.inFolders == st.inFolders
    ensures r.acc == st.acc || r.acc == ""
    ensures Contains(st.acc, "],") && (st.inAll || st.inFolders) ==> r.acc == "" && !r.inAll
    ensures !(Contains(st.acc, "],") && (st.inAll || st.inFolders)) ==> r == st
  {
    if Contains(st.acc, "],") && (st.inAll || st.inFolders) then st.(acc := "", inAll := false) else st
  }

  /** One line through the loop body. */
  function Step(z: Sizes, st: Stream, buf: string): (r: Stream)
    requires z.Valid() && Inv(st) && |buf| < LINE_CAP
    ensures Inv(r)
    ensures st.found <= r.found <= st.found + 1 && |r.slots| >= |st.slots|
    ensures r.slots[..st.found] == st.slots[..st.found]
  {
    EndPhase(EntryPhase(z, SectionPhase(TotalPhase(AppendPhase(st, buf)))))
  }

  /** The state before the first line: both flags off, nothing found, a 2-cell array. */
  function Start(): Stream {
    Stream("", false, false, 0, 0, Blank(FIRST_FILES))
  }

  /** The loop over the lines of the file from position `i` on. */
  function StreamFrom(z: Sizes, s: seq<char>, i: nat, st: Stream): (r: Stream)
    requires z.Valid() && Inv(st) && i <= |s|
    ensures Inv(r) && st.found <= r.found && |st.slots| <= |r.slots|
    decreases |s| - i
  {
    if i == |s| then st
    else
      hide Step, EndPhase, EntryPhase, SectionPhase, TotalPhase, AppendPhase;
      var j := LineEnd(s, i, LINE_CAP - 1);
      StreamFrom(z, s, j, Step(z, st, CStr(s[i..j])))
  }

  /** Two prefix agreements compose. */
  lemma PrefixTrans<T>(a: seq<T>, b: seq<T>, c: seq<T>, m: nat, n: nat)
    requires m <= n <= |b| && n <= |c| && m <= |a|
    requires b[..m] == a[..m] && c[..n] == b[..n]
    ensures c[..m] == a[..m]
  {
    assert c[..m] == c[..n][..m];
  }

  /** The entries found before position `i` survive the rest of the file. */
  lemma {:induction false} StreamKeeps(z: Sizes, s: seq<char>, i: nat, st: Stream)
    requires z.Valid() && Inv(st) && i <= |s|
    ensures StreamFrom(z, s, i, st).slots[..st.found] == st.slots[..st.found]
    decreases |s| - i
  {
    if i < |s| {
      var j := LineEnd(s, i, LINE_CAP - 1);
      var next := Step(z, st, CStr(s[i..j]));
      StreamFromStep(z, s, i, st);
      hide StreamFrom, Step, LineEnd, CStr;
      StreamKeeps(z, s, j, next);
      var r := StreamFrom(z, s, j, next);
      PrefixTrans(st.slots, next.slots, r.slots, st.found, next.found);
    }
  }

  /** One turn of the loop. */
  lemma StreamFromStep(z: Sizes, s: seq<char>, i: nat, st: Stream)
    requires z.Valid() && Inv(st) && i < |s|
    ensures var j := LineEnd(s, i, LINE_CAP - 1);
      StreamFrom(z, s, i, st) == StreamFrom(z, s, j, Step(z, st, CStr(s[i..j])))
  {
  }

  /** A cell holding an entry that was taken from a buffer with name, path and song. */
  ghost predicate Counted(z: Sizes, cell: Slot<Entry>)
    requires z.Valid()
  {
    exists t :: StreamEntry(z, t).Some? && cell == Set(StreamEntry(z, t).value)
  }

  /** Every cell below `found` holds a counted entry. */
  ghost predicate AllCounted(z: Sizes, st: Stream)
    requires z.Valid() && Inv(st)
  {
    forall k :: 0 <= k < st.found ==> Counted(z, st.slots[k])
  }

  /** A line keeps every cell below `found` counted. */
  lemma StepCounted(z: Sizes, st: Stream, buf: string)
    requires z.Valid() && Inv(st) && |buf| < LINE_CAP && AllCounted(z, st)
    ensures AllCounted(z, Step(z, st, buf))
  {
    var m := SectionPhase(TotalPhase(AppendPhase(st, buf)));
    var e := EntryPhase(z, m);
    var r := Step(z, st, buf);
    assert r.slots == e.slots && r.found == e.found;
    forall k | 0 <= k < r.found
      ensures Counted(z, r.slots[k])
    {
      if k < st.found {
        assert r.slots[k] == r.slots[..st.found][k] == st.slots[k];
      } else {
        assert k == m.found && Fires(m) && StreamEntry(z, m.acc).Some?;
        assert StreamEntry(z, m.acc).Some? && r.slots[k] == Set(StreamEntry(z, m.acc).value);
      }
    }
  }

  /** After the whole file, every cell below `found` holds an entry with name, path and song. */
  lemma {:induction false} StreamCounted(z: Sizes, s: seq<char>, i: nat, st: Stream)
    requires z.Valid() && Inv(st) && i <= |s| && AllCounted(z, st)
    ensures AllCounted(z, StreamFrom(z, s, i, st))
    decreases |s| - i
  {
    if i < |s| {
      var j := LineEnd(s, i, LINE_CAP - 1);
      StepCounted(z, st, CStr(s[i..j]));
      StreamCounted(z, s, j, Step(z, st, CStr(s[i..j])));
    }
  }

  /** The record after a streaming parse that ran to the end of the file. */
  function Final(st: Stream): (x: Index)
    ensures x.totalFiles == st.found && x.folderCount == 0 && x.allFiles == Some(st.slots)
  {
    Index("", st.found, Some(st.slots), Some(Blank(1)), 0)
  }

  // ------------------------------------------------------------ the loop, in place

  /** `strcat` into a fixed buffer whose current string has length `len`. */
  method Strcat(dst: array<char>, len: nat, src: string)
    requires len + |src| < dst.Length
    modifies dst
    ensures dst[..len + |src|] == old(dst[..len]) + src
    ensures dst[len + |src|] == '\0'
  {
    var k := 0;
    while k < |src|
      invariant 0 <= k <= |src|
      invariant dst[..len + k] == old(dst[..len]) + src[..k]
    {
      dst[len + k] := src[k];
      assert src[..k + 1] == src[..k] + [src[k]];
      k := k + 1;
    }
    dst[len + |src|] := '\0';
  }

  /** The guarded append of one line to the accumulation buffer. */
  method AppendLine(acc: array<char>, len: nat, buf: string) returns (len': nat)
    requires acc.Length == ACC_CAP && len < ACC_CAP - 1 && |buf| < LINE_CAP
    modifies acc
    ensures len' < ACC_CAP - 1 && acc[..len'] == Append(old(acc[..len]), buf)
  {
    var l := len;
    if l + |buf| >= ACC_CAP - 1 {
      l := 0;
      acc[0] := '\0';
    }
    ghost var before := acc[..l];
    Strcat(acc, l, buf);
    len' := l + |buf|;
  }

  /** `realloc` of the file array to `n` cells; NULL when the allocation fails. */
  method Realloc(a: array<Slot<Entry>>, n: nat) returns (b: array?<Slot<Entry>>)
    requires n >= a.Length
    ensures b != null ==> fresh(b) && b[..] == Grow(a[..], n)
  {
    var ok: bool :| true;
    if !ok {
      return null;
    }
    b := new Slot<Entry>[n](_ => Unset);
    var k := 0;
    while k < a.Length
      invariant 0 <= k <= a.Length
      invariant forall m :: 0 <= m < k ==> b[m] == a[m]
      invariant forall m :: k <= m < n ==> b[m] == Unset
    {
      b[k] := a[k];
      k := k + 1;
    }
  }

  /** Step 2 on the record: read `totalFiles` and grow the array if it asks for more. */
  method TotalCheck(index: IndexRecord, text: string, ghost st: Stream) returns (ok: bool)
    requires index.allFiles != null
    requires st.acc == text && st.total == index.totalFiles && st.slots == index.allFiles[..]
    modifies index
    ensures index.version == old(index.version) && index.musicFolders == old(index.musicFolders)
    ensures index.folderCount == old(index.folderCount)
    ensures ok ==> index.allFiles != null && (index.allFiles == old(index.allFiles) || fresh(index.allFiles))
    ensures ok ==> index.totalFiles == TotalPhase(st).total && index.allFiles[..] == TotalPhase(st).slots
  {
    var p := Find(text, "\"totalFiles\":", 0);
    if p != -1 {
      var t := ExtractInt(text, "totalFiles");
      index.totalFiles := t;
      if t > index.allFiles.Length {
        var b := Realloc(index.allFiles, NewMax(t, index.allFiles.Length));
        if b == null {
          return false;
        }
        index.allFiles := b;
      }
    }
    return true;
  }

  /** Clears the cell at `found` and fills it with the entry the buffer gives, counting it. */
  method FillEntry(files: array<Slot<Entry>>, z: Sizes, text: string, found: nat) returns (found': nat)
    requires z.Valid() && found < files.Length
    modifies files
    ensures files[..] == old(files[..])[found := Set(StreamEntry(z, text).GetOr(Zero()))]
    ensures found' == if StreamEntry(z, text).Some? then found + 1 else found
  {
    hide StringValue, IntValue, Truncate;
    files[found] := Set(Zero());
    var name := ExtractString(text, "name");
    var path := ExtractString(text, "path");
    var song := ExtractString(text, "song");
    var album := ExtractString(text, "album");
    var artist := ExtractString(text, "artist");
    found' := found;
    if name.Some? && path.Some? && song.Some? {
      var e := Entry(Truncate(name.value, z.name), Truncate(path.value, z.path), Truncate(song.value, z.song),
                     if album.Some? then Truncate(album.value, z.album) else "",
                     if artist.Some? then Truncate(artist.value, z.artist) else "",
                     0, 0, 0, 0);
      var rate := ExtractInt(text, "sampleRate");
      var depth := ExtractInt(text, "bitDepth");
      var channels := ExtractInt(text, "channels");
      var folder := ExtractInt(text, "folderIndex");
      files[found] := Set(e.(sampleRate := rate, bitDepth := depth, channels := channels, folderIndex := folder));
      found' := found + 1;
    }
  }

  /** Step 4 on the record: take an entry from the buffer into the cell at `found`. */
  method TakeEntry(index: IndexRecord, z: Sizes, text: string, found: nat, ghost st: Stream)
    returns (found': nat, cleared: bool, ok: bool)
    requires z.Valid() && index.allFiles != null
    requires st.acc == text && st.found == found && st.slots == index.allFiles[..] && found <= index.allFiles.Length
    requires Fires(st)
    modifies index, index.allFiles
    ensures index.version == old(index.version) && index.musicFolders == old(index.musicFolders)
    ensures index.folderCount == old(index.folderCount) && index.totalFiles == old(index.totalFiles)
    ensures ok ==> index.allFiles != null && (index.allFiles == old(index.allFiles) || fresh(index.allFiles))
    ensures ok ==> found' == EntryPhase(z, st).found && index.allFiles[..] == EntryPhase(z, st).slots
  {
    hide StringValue, IntValue, Truncate, Fires, Contains, StreamEntry;
    if found >= index.allFiles.Length {
      var b := Realloc(index.allFiles, index.allFiles.Length + GROW_STEP);
      if b == null {
        return found, false, false;
      }
      index.allFiles := b;
    }
    found' := FillEntry(index.allFiles, z, text, found);
    return found', true, true;
  }

  /** Step 3 on the parser's flags. */
  method Sections(text: string, inAll: bool, inFolders: bool, ghost st: Stream) returns (inAll': bool, inFolders': bool)
    requires st.acc == text && st.inAll == inAll && st.inFolders == inFolders
    ensures inAll' == SectionPhase(st).inAll && inFolders' == SectionPhase(st).inFolders
  {
    inAll', inFolders' := inAll, inFolders;
    var p := Find(text, "\"allFiles\":", 0);
    if p != -1 {
      inAll' := true;
    }
    p := Find(text, "\"folders\":", 0);
    if p != -1 {
      inFolders' := true;
      inAll' := false;
    }
  }

  /** The condition of step 4 on the buffer and the flag. */
  method Complete(text: string, inAll: bool, ghost st: Stream) returns (fires: bool)
    requires st.acc == text && st.inAll == inAll
    ensures fires == Fires(st)
  {
    if !inAll {
      return false;
    }
    var name := Find(text, "\"name\":", 0);
    var path := Find(text, "\"path\":", 0);
    var song := Find(text, "\"song\":", 0);
    var close := Find(text, "}", 0);
    fires := name != -1 && path != -1 && song != -1 && close != -1;
  }

  /** The body of the loop for one line `buf`: the five steps on the buffer, the flags and the record. */
  method ScanLine(index: IndexRecord, z: Sizes, acc: array<char>, len: nat, inAll: bool, inFolders: bool,
                  found: nat, buf: string, ghost st0: Stream)
    returns (len': nat, inAll': bool, inFolders': bool, found': nat, ok: bool)
    requires z.Valid() && acc.Length == ACC_CAP && len < ACC_CAP - 1 && |buf| < LINE_CAP && index.allFiles != null
    requires st0 == Stream(acc[..len], inAll, inFolders, found, index.totalFiles, index.allFiles[..]) && Inv(st0)
    modifies index, index.allFiles, acc
    ensures len' < ACC_CAP - 1
    ensures index.version == old(index.version) && index.musicFolders == old(index.musicFolders)
    ensures index.folderCount == old(index.folderCount)
    ensures ok ==> index.allFiles != null && (index.allFiles == old(index.allFiles) || fresh(index.allFiles))
    ensures ok ==> Stream(acc[..len'], inAll', inFolders', found', index.totalFiles, index.allFiles[..]) == Step(z, st0, buf)
  {
    hide EndPhase, EntryPhase, SectionPhase, TotalPhase, StringValue, IntValue, Truncate, Fires, IndexOf, StreamEntry,
      Grow, Blank, CStr, LineEnd, StreamFrom;
    inAll', inFolders', found' := inAll, inFolders, found;
    len' := AppendLine(acc, len, buf);
    var text := acc[..len'];
    ghost var st1 := AppendPhase(st0, buf);
    ok := TotalCheck(index, text, st1);
    if !ok {
      return;
    }
    ghost var st2 := TotalPhase(st1);
    inAll', inFolders' := Sections(text, inAll, inFolders, st2);
    ghost var st3 := SectionPhase(st2);
    var fires := Complete(text, inAll', st3);
    if fires {
      var cleared;
      found', cleared, ok := TakeEntry(index, z, text, found, st3);
      if !ok {
        return;
      }
      len' := 0;
      acc[0] := '\0';
      text := "";
    }
    ghost var st4 := EntryPhase(z, st3);
    assert st4 == Stream(text, inAll', inFolders', found', index.totalFiles, index.allFiles[..]);
    len', inAll' := EndCheck(acc, len', inAll', inFolders', st4);
  }

  /** Step 5 on the buffer and the flag. */
  method EndCheck(acc: array<char>, len: nat, inAll: bool, inFolders: bool, ghost st: Stream)
    returns (len': nat, inAll': bool)
    requires len < ACC_CAP - 1 && acc.Length == ACC_CAP
    requires st.acc == acc[..len] && st.inAll == inAll && st.inFolders == inFolders
    modifies acc
    ensures len' <= len && acc[..len'] == EndPhase(st).acc && inAll' == EndPhase(st).inAll
  {
    len', inAll' := len, inAll;
    var end := Find(acc[..len], "],", 0);
    if end != -1 && (inAll || inFolders) {
      len' := 0;
      acc[0] := '\0';
      inAll' := false;
    }
  }

  /**
   * `parse_index_streaming`; `file` is the content of the opened file, None when it
   * cannot be opened. Unless an allocation fails, the record ends as `Final` of the
   * loop over all lines, and the result is ESP_OK exactly when an entry was found.
   */
  method Streaming(index: IndexRecord, z: Sizes, file: Option<seq<char>>) returns (r: ErrCode)
    requires z.Valid()
    modifies index
    ensures r == EspOk || r == EspFail || r == NoMem
    ensures file.None? ==> r == EspFail && unchanged(index)
    ensures file.Some? && r != NoMem ==>
      var st := StreamFrom(z, file.value, 0, Start());
      (r == EspOk <==> st.found > 0) && index.Value() == Final(st)
  {
    hide Step, EndPhase, EntryPhase, SectionPhase, TotalPhase, StringValue, IntValue, Truncate, Fires, IndexOf,
      StreamEntry, LineEnd, CStr;
    if file.None? {
      return EspFail;
    }
    var s := file.value;
    index.Clear();
    var ok: bool :| true;
    if !ok {
      return NoMem;
    }
    var files := new Slot<Entry>[FIRST_FILES](_ => Unset);
    ok :| true;
    if !ok {
      return NoMem;
    }
    var folders := new Slot<Folder>[1](_ => Unset);
    index.allFiles := files;
    index.musicFolders := folders;
    var acc := new char[ACC_CAP];
    acc[0] := '\0';
    var len: nat := 0;
    var inAll, inFolders := false, false;
    var found: nat := 0;
    var i := 0;
    assert files[..] == Blank(FIRST_FILES);
    while i < |s|
      invariant i <= |s| && len < ACC_CAP - 1 && acc.Length == ACC_CAP
      invariant index.allFiles != null && fresh(index.allFiles) && index.musicFolders == folders
      invariant index.version == "" && index.folderCount == 0 && folders[..] == Blank(1)
      invariant Inv(Stream(acc[..len], inAll, inFolders, found, index.totalFiles, index.allFiles[..]))
      invariant StreamFrom(z, s, i, Stream(acc[..len], inAll, inFolders, found, index.totalFiles, index.allFiles[..]))
        == StreamFrom(z, s, 0, Start())
      decreases |s| - i
    {
      ghost var st0 := Stream(acc[..len], inAll, inFolders, found, index.totalFiles, index.allFiles[..]);
      var j := LineEnd(s, i, LINE_CAP - 1);
      var buf := CStr(s[i..j]);
      StreamFromStep(z, s, i, st0);
      hide StreamFrom;
      len, inAll, inFolders, found, ok := ScanLine(index, z, acc, len, inAll, inFolders, found, buf, st0);
      if !ok {
        return NoMem;
      }
      i := j;
    }
    index.totalFiles := found;
    index.folderCount := 0;
    r := if found > 0 then EspOk else EspFail;
  }
}
