/**
 * `parse_index_minimal` of `json_parser_old.c`: the last fallback, which reads the file
 * in lines of at most 255 characters and keeps only the first line naming a `.pcm` file
 * whose name lies between the first two quotes after `"name":`.
 */
module OldMinimal {
  import opened Esp
  import opened Search
  import opened JsonText
  import opened ArrayWalk
  import opened OldRecord
  import opened OldStream

  /** `sizeof(line)`. */
  const MINIMAL_LINE_CAP := 256

  /** The line looks like it names a sound file. */
  predicate Candidate(line: string) {
    Contains(line, "\"name\":") && Contains(line, ".pcm")
  }

  /** The text between the first two quotes after the first `"name":`, if both quotes are there. */
  function QuotedName(line: string): (r: Option<string>)
    ensures r.Some? ==> '"' !in r.value && Contains(line, "\"name\":")
  {
    var p := IndexOf(line, "\"name\":", 0, |line|);
    if p == -1 then None
    else
      var q1 := IndexOf(line, ['"'], p + 7, |line|);
      if q1 == -1 then None
      else
        var q2 := IndexOf(line, ['"'], q1 + 1, |line|);
        if q2 == -1 then None
        else
          IndexOfSound(line, ['"'], q1 + 1, |line|);
          assert '"' !in line[q1 + 1..q2] by {
            forall k | q1 + 1 <= k < q2 ensures line[k] != '"' {
              assert !OccursAt(line, ['"'], k);
            }
          }
          Some(line[q1 + 1..q2])
  }

  /**
   * The entry a candidate line gives: the name (at least one character, and shorter than
   * `name` less one), the path set to the name, the old defaults for the rest.
   */
  function MinimalEntry(z: Sizes, line: string): (r: Option<Entry>)
    requires z.Valid()
    ensures r.Some? ==> Candidate(line) && QuotedName(line) == Some(r.value.name)
    ensures r.Some? ==> 0 < |r.value.name| < z.name - 1 && r.value.path == Truncate(r.value.name, z.path)
    ensures r.Some? ==> r.value.sampleRate == 44100 && r.value.bitDepth == 16 && r.value.channels == 2
    ensures Candidate(line) && QuotedName(line).Some? && 0 < |QuotedName(line).value| < z.name - 1 ==> r.Some?
  {
    if !Candidate(line) then None
    else match QuotedName(line)
      case None => None
      case Some(n) =>
        if 0 < |n| < z.name - 1 then
          Some(Entry(n, Truncate(n, z.path), Truncate("Unknown Song", z.song), Truncate("Unknown Album", z.album),
                     Truncate("Unknown Artist", z.artist), 44100, 16, 2, 0))
        else None
  }

  /** Where the loop ends: the cell of the array and whether an entry was taken. */
  datatype Outcome = Outcome(cell: Slot<Entry>, found: bool)

  /** The record the minimal parser leaves: the one cell, a count of 1 or 0, no folders. */
  function MinimalIndex(o: Outcome): (x: Index)
    ensures x.allFiles == Some([o.cell]) && x.folders.None? && x.folderCount == 0
    ensures x.totalFiles == (if o.found then 1 else 0)
  {
    Index("", if o.found then 1 else 0, Some([o.cell]), None, 0)
  }

  /**
   * The loop from position `i`: a candidate line clears the cell, and a line that gives
   * an entry ends the loop with it.
   */
  function MinimalFrom(z: Sizes, s: seq<char>, i: nat, cell: Slot<Entry>): (r: Outcome)
    requires z.Valid() && i <= |s|
    ensures r.found ==> exists line :: MinimalEntry(z, line).Some? && r.cell == Set(MinimalEntry(z, line).value)
    ensures !r.found ==> r.cell == cell || r.cell == Set(Zero())
    decreases |s| - i
  {
    if i == |s| then Outcome(cell, false)
    else
      var j := LineEnd(s, i, MINIMAL_LINE_CAP - 1);
      var line := CStr(s[i..j]);
      if Candidate(line) then
        match MinimalEntry(z, line)
        case Some(e) => Outcome(Set(e), true)
        case None => MinimalFrom(z, s, j, Set(Zero()))
      else MinimalFrom(z, s, j, cell)
  }

  /** A line `"name": "n"…` with a quote-free `n` yields `n` as the name. */
  lemma QuotedNameOf(n: string, rest: string)
    requires '"' !in n
    ensures QuotedName("\"name\":\"" + n + "\"" + rest) == Some(n)
  {
    var line := "\"name\":\"" + n + "\"" + rest;
    assert line[..7] == "\"name\":";
    IndexOfIs(line, "\"name\":", 0, |line|, 0);
    IndexOfIs(line, ['"'], 7, |line|, 7);
    forall q | 8 <= q < 8 + |n|
      ensures !OccursAt(line, ['"'], q)
    {
      assert line[q] == n[q - 8];
    }
    IndexOfIs(line, ['"'], 8, |line|, 8 + |n|);
    assert line[8..8 + |n|] == n;
  }

  /** An occurrence in a slice of `t` is an occurrence in `t`. */
  lemma ContainsIn(t: string, pat: string, a: nat, b: nat)
    requires a <= b <= |t| && Contains(t[a..b], pat)
    ensures Contains(t, pat)
  {
    var u := t[a..b];
    IndexOfSound(u, pat, 0, |u|);
    var p := IndexOf(u, pat, 0, |u|);
    OccursInSlice(t, a, b, pat, p + a);
    IndexOfSound(t, pat, 0, |t|);
  }

  /** `fgets` stops right after the first newline when it comes within the room. */
  lemma LineEndAt(t: seq<char>, n: nat, room: nat)
    requires 0 < n <= room && n <= |t| && t[n - 1] == '\n'
    requires forall k :: 0 <= k < n - 1 ==> t[k] != '\n'
    ensures LineEnd(t, 0, room) == n
  {
  }

  /**
   * A first line that names a `.pcm` file of acceptable length is the one the fallback
   * keeps, whatever follows it.
   */
  lemma MinimalFinds(z: Sizes, n: string, rest: string, s: seq<char>)
    requires z.Valid() && '"' !in n && '\n' !in n && '\0' !in n && 0 < |n| < z.name - 1
    requires '\n' !in rest && '\0' !in rest && |n| + |rest| + 10 <= MINIMAL_LINE_CAP - 1
    requires Contains(rest, ".pcm")
    ensures MinimalFrom(z, "\"name\":\"" + n + "\"" + rest + "\n" + s, 0, Unset) ==
      Outcome(Set(Entry(n, Truncate(n, z.path), Truncate("Unknown Song", z.song), Truncate("Unknown Album", z.album),
                        Truncate("Unknown Artist", z.artist), 44100, 16, 2, 0)), true)
  {
    var head := "\"name\":\"" + n + "\"";
    var line := head + (rest + "\n");
    var t := line + s;
    assert "\"name\":\"" + n + "\"" + rest + "\n" + s == t;
    assert |head| == |n| + 9;
    forall k | 0 <= k < |line| - 1
      ensures t[k] != '\n' && t[k] != '\0'
    {
      if k < 8 {
        assert t[k] == "\"name\":\""[k];
      } else if k < 8 + |n| {
        assert t[k] == n[k - 8];
      } else if k < |head| {
        assert t[k] == '"';
      } else {
        assert t[k] == rest[k - |head|];
      }
    }
    LineEndAt(t, |line|, MINIMAL_LINE_CAP - 1);
    assert t[..|line|] == line;
    assert '\0' !in line;
    assert CStr(line) == line;
    QuotedNameOf(n, rest + "\n");
    assert line[|head|..|head| + |rest|] == rest;
    ContainsIn(line, ".pcm", |head|, |head| + |rest|);
  }

  /** The tests on one line: `strstr` for the two patterns, `strchr` for the two quotes, the length check. */
  method ScanName(z: Sizes, line: string) returns (candidate: bool, e: Option<Entry>)
    requires z.Valid()
    ensures candidate == Candidate(line) && e == MinimalEntry(z, line)
  {
    var p := Find(line, "\"name\":", 0);
    var q := Find(line, ".pcm", 0);
    candidate := p != -1 && q != -1;
    if !candidate {
      return false, None;
    }
    IndexOfSound(line, "\"name\":", 0, |line|);
    var q1 := Find(line, ['"'], p + 7);
    if q1 == -1 {
      return true, None;
    }
    IndexOfSound(line, ['"'], p + 7, |line|);
    var q2 := Find(line, ['"'], q1 + 1);
    if q2 == -1 {
      return true, None;
    }
    IndexOfSound(line, ['"'], q1 + 1, |line|);
    var len := q2 - q1 - 1;
    if 0 < len < z.name - 1 {
      var name := line[q1 + 1..q2];
      e := Some(Entry(name, Truncate(name, z.path), Truncate("Unknown Song", z.song), Truncate("Unknown Album", z.album),
                      Truncate("Unknown Artist", z.artist), 44100, 16, 2, 0));
    } else {
      e := None;
    }
  }

  /**
   * `parse_index_minimal`; `file` is the content of the opened file, None when it cannot
   * be opened. Unless the one-cell array cannot be allocated, the record holds the cell
   * the loop leaves and a count of 1 or 0, and the result is ESP_OK exactly when a file
   * was found.
   */
  method Minimal(index: IndexRecord, z: Sizes, file: Option<seq<char>>) returns (r: ErrCode)
    requires z.Valid()
    modifies index
    ensures r == EspOk || r == EspFail || r == NoMem
    ensures file.None? ==> r == EspFail && unchanged(index)
    ensures file.Some? && r != NoMem ==>
      var o := MinimalFrom(z, file.value, 0, Unset);
      (r == EspOk <==> o.found) && index.Value() == MinimalIndex(o)
  {
    hide MinimalEntry, Candidate, QuotedName, Truncate, IndexOf, LineEnd, CStr;
    if file.None? {
      return EspFail;
    }
    var s := file.value;
    index.Clear();
    var ok: bool :| true;
    if !ok {
      return NoMem;
    }
    var files := new Slot<Entry>[1](_ => Unset);
    index.allFiles := files;
    var found := false;
    var i := 0;
    while i < |s| && !found
      invariant i <= |s| && index.allFiles == files && index.musicFolders == null
      invariant index.version == "" && index.totalFiles == 0 && index.folderCount == 0
      invariant (if found then Outcome(files[0], true) else MinimalFrom(z, s, i, files[0])) == MinimalFrom(z, s, 0, Unset)
      decreases |s| - i, !found
    {
      var j := LineEnd(s, i, MINIMAL_LINE_CAP - 1);
      var line := CStr(s[i..j]);
      var candidate, e := ScanName(z, line);
      if candidate {
        files[0] := Set(Zero());
        if e.Some? {
          files[0] := Set(e.value);
          found := true;
        }
      }
      i := j;
    }
    if !found {
      assert i == |s|;
    }
    assert files[..] == [files[0]];
    index.totalFiles := if found then 1 else 0;
    index.folderCount := 0;
    index.musicFolders := null;
    r := if found then EspOk else EspFail;
  }
}
