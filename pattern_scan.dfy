/**
 * The bounded-memory scanner of debug_json.c: a literal-pattern search through a
 * fixed 512-byte window that carries the last `|pattern| - 1` bytes over to the next
 * read, and the counter of `{` entries in the `"allFiles":` array built on it.
 *
 * The file is a sequence of bytes; `fseek` fails only for a negative offset and
 * `fread` returns the bytes that remain, at most the number asked for.
 */
module PatternScan {
  import opened Esp
  import opened Search

  newtype byte = b: int | 0 <= b < 256

  /** Bytes read per window (BUFFER_SIZE). */
  const BUFFER_SIZE: nat := 512

  /** The patterns `count_objects_debug` searches for, as bytes. */
  const ALL_FILES_KEY: seq<byte> := [34, 97, 108, 108, 70, 105, 108, 101, 115, 34, 58] // "allFiles":
  const OPEN_BRACKET: seq<byte> := [91]  // [
  const CLOSE_BRACKET: seq<byte> := [93] // ]
  const OPEN_BRACE: seq<byte> := [123]   // {

  /** Largest number of objects `count_objects_debug` counts. */
  const MAX_OBJECTS: nat := 1000

  /** `strstr` on the window sees every byte read only when the file holds no NUL. */
  predicate NulFree(s: seq<byte>) {
    forall i :: 0 <= i < |s| ==> s[i] != 0
  }

  function Min(a: int, b: int): int {
    if a <= b then a else b
  }

  /** Bytes the loop reads before `searched < max_search` fails: whole windows. */
  function Reach(maxSearch: int): nat {
    if maxSearch <= 0 then 0 else BUFFER_SIZE * ((maxSearch + BUFFER_SIZE - 1) / BUFFER_SIZE)
  }

  /** The loop reads at least `max_search` bytes and less than one window more. */
  lemma ReachBounds(maxSearch: int)
    requires maxSearch > 0
    ensures maxSearch <= Reach(maxSearch) < maxSearch + BUFFER_SIZE
  {
  }

  /** Each window read leaves the rest of the budget to cover the rest of the reach. */
  lemma ReachStep(maxSearch: int)
    requires maxSearch > 0
    ensures Reach(maxSearch) == BUFFER_SIZE + Reach(maxSearch - BUFFER_SIZE)
  {
  }

  /** End (exclusive) of the bytes a search from `start` can see. */
  function ScanLimit(n: nat, start: nat, maxSearch: int): nat {
    Min(n, start + Reach(maxSearch))
  }

  /**
   * What `find_pattern_debug(file, start, pattern, max_search)` returns: -1 for an empty
   * pattern, a non-positive budget or a failing seek, otherwise the leftmost occurrence
   * at or after `start` that ends within the bytes read, or -1.
   */
  function FindPatternSpec(file: seq<byte>, start: int, pat: seq<byte>, maxSearch: int): int {
    if |pat| == 0 || maxSearch <= 0 || start < 0 then -1
    else IndexOf(file, pat, start, ScanLimit(|file|, start, maxSearch))
  }

  /** A hit is an occurrence at or after `start` with none between `start` and it. */
  lemma FindPatternHit(file: seq<byte>, start: int, pat: seq<byte>, maxSearch: int)
    ensures var r := FindPatternSpec(file, start, pat, maxSearch);
      r == -1 ||
      (0 <= start <= r && OccursAt(file, pat, r) && r + |pat| <= start + maxSearch + BUFFER_SIZE - 1 &&
       forall q :: start <= q < r ==> !OccursAt(file, pat, q))
  {
    if |pat| > 0 && maxSearch > 0 && start >= 0 {
      ReachBounds(maxSearch);
      IndexOfSound(file, pat, start, ScanLimit(|file|, start, maxSearch));
    }
  }

  /**
   * Every occurrence that ends within `max_search` bytes of `start` is found: the
   * result is -1 only when there is none, and otherwise lies at or before it.
   */
  lemma FindPatternComplete(file: seq<byte>, start: int, pat: seq<byte>, maxSearch: int, q: int)
    requires |pat| > 0 && 0 <= start <= q
    requires OccursAt(file, pat, q) && q + |pat| <= start + maxSearch
    ensures 0 <= FindPatternSpec(file, start, pat, maxSearch) <= q
  {
    ReachBounds(maxSearch);
    IndexOfSound(file, pat, start, ScanLimit(|file|, start, maxSearch));
  }

  /** An empty pattern is never found. */
  lemma FindPatternEmpty(file: seq<byte>, start: int, maxSearch: int)
    ensures FindPatternSpec(file, start, [], maxSearch) == -1
  {
  }

  /** `memmove(a, a + from, len)`: moves `len` bytes to the front, overlapping allowed. */
  method MoveToFront(a: array<byte>, from: nat, len: nat)
    requires from + len <= a.Length
    modifies a
    ensures a[..len] == old(a[from..from + len])
    ensures a[len..] == old(a[len..])
  {
    var k := 0;
    while k < len
      invariant 0 <= k <= len
      invariant forall j :: 0 <= j < k ==> a[j] == old(a[from + j])
      invariant forall j :: k <= j < a.Length ==> a[j] == old(a[j])
    {
      a[k] := a[from + k];
      k := k + 1;
    }
  }

  /** `fread(window + at, 1, BUFFER_SIZE, file)` after `fseek(file, pos)`. */
  method ReadBlock(file: seq<byte>, pos: nat, window: array<byte>, at: nat) returns (n: nat)
    requires at + BUFFER_SIZE <= window.Length
    modifies window
    ensures n == if pos >= |file| then 0 else Min(BUFFER_SIZE, |file| - pos)
    ensures window[..at] == old(window[..at])
    ensures n > 0 ==> window[at..at + n] == file[pos..pos + n]
  {
    n := if pos >= |file| then 0 else Min(BUFFER_SIZE, |file| - pos);
    var k := 0;
    while k < n
      invariant 0 <= k <= n
      invariant window[..at] == old(window[..at])
      invariant forall j :: at <= j < at + k ==> window[j] == file[pos + (j - at)]
    {
      window[at + k] := file[pos + k];
      k := k + 1;
    }
    if n > 0 {
      ghost var got, want := window[at..at + n], file[pos..pos + n];
      forall j | 0 <= j < n ensures got[j] == want[j] {
        assert window[at + j] == file[pos + j];
      }
    }
  }

  /** A slice of a slice is a slice. */
  lemma SliceOfSlice<T>(s: seq<T>, a: nat, b: nat, i: nat, j: nat)
    requires a <= b <= |s| && i <= j <= b - a
    ensures s[a..b][i..j] == s[a + i..a + j]
  {
    forall k | 0 <= k < j - i
      ensures s[a..b][i..j][k] == s[a + i..a + j][k]
    {
      assert s[a..b][i..j][k] == s[a..b][i + k] == s[a + i + k];
    }
  }

  /** No occurrence starts at or after `start` and ends by `end`. */
  ghost predicate NoneBefore(file: seq<byte>, pat: seq<byte>, start: nat, end: int) {
    forall q :: start <= q && q + |pat| <= end ==> !OccursAt(file, pat, q)
  }

  /**
   * A window that begins at `pos - overlap`, where the carried bytes are too few to hold
   * a whole earlier match, reports the leftmost occurrence after `start`.
   */
  lemma WindowHit(file: seq<byte>, pat: seq<byte>, start: nat, pos: nat, overlap: nat,
                  end: nat, limit: nat, r0: int)
    requires start + overlap <= pos <= end <= limit <= |file|
    requires overlap >= |pat| - 1 || pos == start + overlap
    requires NoneBefore(file, pat, start, pos)
    requires 0 <= r0 && r0 == IndexOf(file[pos - overlap..end], pat, 0, end - pos + overlap)
    ensures IndexOf(file, pat, start, limit) == pos - overlap + r0
  {
    var w := file[pos - overlap..end];
    IndexOfSound(w, pat, 0, end - pos + overlap);
    var p := pos - overlap + r0;
    OccursInSlice(file, pos - overlap, end, pat, p);
    forall q | start <= q < p ensures !OccursAt(file, pat, q) {
      if q >= pos - overlap {
        OccursInSlice(file, pos - overlap, end, pat, q);
      }
    }
    IndexOfIs(file, pat, start, limit, p);
  }

  /** A window without a match extends the range known to hold no occurrence. */
  lemma WindowMiss(file: seq<byte>, pat: seq<byte>, start: nat, pos: nat, overlap: nat, end: nat)
    requires start + overlap <= pos <= end <= |file|
    requires overlap >= |pat| - 1 || pos == start + overlap
    requires NoneBefore(file, pat, start, pos)
    requires IndexOf(file[pos - overlap..end], pat, 0, end - pos + overlap) == -1
    ensures NoneBefore(file, pat, start, end)
  {
    IndexOfSound(file[pos - overlap..end], pat, 0, end - pos + overlap);
    forall q | start <= q && q + |pat| <= end ensures !OccursAt(file, pat, q) {
      if q >= pos - overlap {
        OccursInSlice(file, pos - overlap, end, pat, q);
      }
    }
  }

  /**
   * One pass of the loop body up to the search: read a block behind the `overlap`
   * carried bytes, terminate the window with NUL and search it with `strstr`.
   */
  method SearchWindow(file: seq<byte>, pat: seq<byte>, window: array<byte>, pos: nat, overlap: nat)
    returns (bytesRead: nat, found: int)
    requires overlap < |pat| && window.Length == BUFFER_SIZE + |pat|
    requires overlap > 0 ==> overlap <= pos <= |file| && window[..overlap] == file[pos - overlap..pos]
    modifies window
    ensures bytesRead == if pos >= |file| then 0 else Min(BUFFER_SIZE, |file| - pos)
    ensures bytesRead > 0 ==> window[..overlap + bytesRead] == file[pos - overlap..pos + bytesRead]
    ensures bytesRead > 0 ==> found == IndexOf(file[pos - overlap..pos + bytesRead], pat, 0, overlap + bytesRead)
  {
    bytesRead := ReadBlock(file, pos, window, overlap);
    found := -1;
    if bytesRead > 0 {
      var total := overlap + bytesRead;
      window[total] := 0; // in bounds: overlap + BUFFER_SIZE < BUFFER_SIZE + |pattern|
      var w := window[..total];
      assert w == window[..overlap] + window[overlap..overlap + bytesRead];
      assert w == file[pos - overlap..pos] + file[pos..pos + bytesRead];
      assert w == file[pos - overlap..pos + bytesRead];
      found := Find(w, pat, 0);
    }
  }

  /**
   * The carry step: after a miss in a window of `total` bytes, keep its last
   * `|pattern| - 1` bytes at the front, or the whole window when it is shorter.
   * The window held the file bytes `[lo, lo + total)`, so the front now holds the
   * bytes just before `lo + total`.
   */
  method Carry(window: array<byte>, total: nat, patLen: nat, ghost file: seq<byte>, ghost lo: nat)
    returns (overlap: nat)
    requires 0 < patLen && total <= window.Length && lo + total <= |file|
    requires window[..total] == file[lo..lo + total]
    modifies window
    ensures overlap == Min(patLen - 1, total)
    ensures window[..overlap] == file[lo + total - overlap..lo + total]
  {
    if total >= patLen {
      ghost var before := window[..total];
      MoveToFront(window, total - (patLen - 1), patLen - 1);
      assert window[..patLen - 1] == before[total - (patLen - 1)..];
      SliceOfSlice(file, lo, lo + total, total - (patLen - 1), total);
      overlap := patLen - 1;
    } else {
      overlap := total;
    }
  }

  /** The carried length only depends on the bytes searched so far. */
  lemma CarriedLength(patLen: nat, searched: nat, n: nat)
    ensures Min(patLen - 1, Min(patLen - 1, searched) + n) == Min(patLen - 1, searched + n)
  {
  }

  /**
   * What holds at the top of the loop of `find_pattern_debug`: `searched` bytes have been
   * read from `start` in whole windows, `carried` (the window front) holds the last
   * `min(|pattern| - 1, searched)` of them, and no match ends at or before `pos`.
   */
  ghost predicate ScanInv(file: seq<byte>, pat: seq<byte>, start: int, maxSearch: int,
                          pos: int, searched: int, carried: seq<byte>)
  {
    0 <= searched && pos == start + searched &&
    searched + Reach(maxSearch - searched) == Reach(maxSearch) &&
    |carried| == Min(|pat| - 1, searched) &&
    (searched > 0 ==> 0 <= start && pos <= |file| && carried == file[pos - |carried|..pos]) &&
    (start >= 0 ==> NoneBefore(file, pat, start, pos))
  }

  /** A hit in the current window is the value `find_pattern_debug` is specified to return. */
  lemma HitIsResult(file: seq<byte>, pat: seq<byte>, start: int, maxSearch: int, pos: int, searched: int,
                    carried: seq<byte>, n: nat, found: int)
    requires ScanInv(file, pat, start, maxSearch, pos, searched, carried)
    requires |pat| > 0 && searched < maxSearch && 0 <= pos
    requires 0 < n <= BUFFER_SIZE && pos + n <= |file|
    requires 0 <= found == IndexOf(file[pos - |carried|..pos + n], pat, 0, |carried| + n)
    ensures FindPatternSpec(file, start, pat, maxSearch) == pos - |carried| + found
  {
    ReachBounds(maxSearch - searched);
    WindowHit(file, pat, start, pos, |carried|, pos + n, ScanLimit(|file|, start, maxSearch), found);
  }

  /** Once the bytes up to `end` hold no match and the scan cannot go further, the result is -1. */
  lemma MissIsResult(file: seq<byte>, start: int, pat: seq<byte>, maxSearch: int, end: int)
    requires start >= 0 ==> NoneBefore(file, pat, start, end)
    requires start >= 0 && maxSearch > 0 ==> ScanLimit(|file|, start, maxSearch) <= end
    ensures FindPatternSpec(file, start, pat, maxSearch) == -1
  {
    if |pat| > 0 && maxSearch > 0 && start >= 0 {
      IndexOfNone(file, pat, start, ScanLimit(|file|, start, maxSearch));
    }
  }

  /** A read at or past the end of the file ends the search with -1. */
  lemma EndIsMiss(file: seq<byte>, pat: seq<byte>, start: int, maxSearch: int, pos: int, searched: int,
                  carried: seq<byte>)
    requires ScanInv(file, pat, start, maxSearch, pos, searched, carried)
    requires 0 <= pos && |file| <= pos
    ensures FindPatternSpec(file, start, pat, maxSearch) == -1
  {
    MissIsResult(file, start, pat, maxSearch, pos);
  }

  /** A short read without a match ends the search with -1: the window reached the end. */
  lemma ShortIsMiss(file: seq<byte>, pat: seq<byte>, start: int, maxSearch: int, pos: int, searched: int,
                    carried: seq<byte>, n: nat)
    requires ScanInv(file, pat, start, maxSearch, pos, searched, carried)
    requires |pat| > 0 && 0 <= pos && 0 < n && pos + n == |file|
    requires IndexOf(file[pos - |carried|..pos + n], pat, 0, |carried| + n) == -1
    ensures FindPatternSpec(file, start, pat, maxSearch) == -1
  {
    if start >= 0 {
      WindowMiss(file, pat, start, pos, |carried|, pos + n);
    }
    MissIsResult(file, start, pat, maxSearch, pos + n);
  }

  /** A full window without a match keeps the loop invariant for the next window. */
  lemma Advance(file: seq<byte>, pat: seq<byte>, start: int, maxSearch: int, pos: int, searched: int,
                carried: seq<byte>, n: nat, next: seq<byte>)
    requires ScanInv(file, pat, start, maxSearch, pos, searched, carried)
    requires |pat| > 0 && searched < maxSearch && n == BUFFER_SIZE && 0 <= pos && pos + n <= |file|
    requires IndexOf(file[pos - |carried|..pos + n], pat, 0, |carried| + n) == -1
    requires |next| == Min(|pat| - 1, |carried| + n) && next == file[pos + n - |next|..pos + n]
    ensures ScanInv(file, pat, start, maxSearch, pos + n, searched + n, next)
  {
    if start >= 0 {
      WindowMiss(file, pat, start, pos, |carried|, pos + n);
    }
    CarriedLength(|pat|, searched, n);
  }

  /**
   * One iteration of the loop of `find_pattern_debug` once the seek has succeeded:
   * read, search and, after a full read without a match, carry. `done` means the
   * loop ends here with result `r`.
   */
  method ScanStep(file: seq<byte>, pat: seq<byte>, start: int, maxSearch: int, window: array<byte>,
                  pos: nat, searched: nat, overlap: nat)
    returns (done: bool, r: int, bytesRead: nat, newOverlap: nat)
    requires |pat| > 0 && window.Length == BUFFER_SIZE + |pat| && searched < maxSearch
    requires overlap <= window.Length && ScanInv(file, pat, start, maxSearch, pos, searched, window[..overlap])
    modifies window
    ensures done ==> r == FindPatternSpec(file, start, pat, maxSearch)
    ensures !done ==> bytesRead == BUFFER_SIZE && newOverlap <= window.Length
    ensures !done ==> ScanInv(file, pat, start, maxSearch, pos + bytesRead, searched + bytesRead,
                              window[..newOverlap])
  {
    newOverlap := overlap;
    ghost var carried := window[..overlap];
    var found;
    bytesRead, found := SearchWindow(file, pat, window, pos, overlap);
    if bytesRead == 0 {
      EndIsMiss(file, pat, start, maxSearch, pos, searched, carried);
      return true, -1, bytesRead, newOverlap;
    }
    if found >= 0 {
      HitIsResult(file, pat, start, maxSearch, pos, searched, carried, bytesRead, found);
      return true, pos - overlap + found, bytesRead, newOverlap;
    }
    if bytesRead < BUFFER_SIZE {
      ShortIsMiss(file, pat, start, maxSearch, pos, searched, carried, bytesRead);
      return true, -1, bytesRead, newOverlap;
    }
    newOverlap := Carry(window, overlap + bytesRead, |pat|, file, pos - overlap);
    Advance(file, pat, start, maxSearch, pos, searched, carried, bytesRead, window[..newOverlap]);
    done, r := false, -1;
  }

  /**
   * `find_pattern_debug`: reads the file window by window from `start`, searches each
   * window (the carried bytes plus the new ones) and, after a miss, moves the last
   * `|pattern| - 1` bytes to the window front so that a match split across two reads
   * is still found.
   */
  method FindPattern(file: seq<byte>, start: int, pat: seq<byte>, maxSearch: int) returns (r: int)
    requires NulFree(file)
    ensures r == FindPatternSpec(file, start, pat, maxSearch)
  {
    if |pat| == 0 {
      return -1;
    }
    var window := new byte[BUFFER_SIZE + |pat|];
    var pos := start;
    var searched: nat := 0;
    var overlap: nat := 0;
    while searched < maxSearch
      invariant overlap <= window.Length
      invariant ScanInv(file, pat, start, maxSearch, pos, searched, window[..overlap])
      decreases maxSearch - searched
    {
      if pos < 0 {
        return -1; // fseek fails
      }
      var done, found, bytesRead;
      done, found, bytesRead, overlap := ScanStep(file, pat, start, maxSearch, window, pos, searched, overlap);
      if done {
        return found;
      }
      pos := pos + bytesRead;
      searched := searched + bytesRead;
    }
    MissIsResult(file, start, pat, maxSearch, pos);
    return -1;
  }

  /** Budgets `count_objects_debug` passes to the scanner. */
  const KEY_BUDGET: int := 1000000
  const BRACKET_BUDGET: int := 1000
  const OBJECT_BUDGET: int := 10000000
  /** Slack added to the distance to the next `{` when probing for `]`. */
  const CLOSE_SLACK: int := 10

  /**
   * The probe for `]` that `count_objects_debug` runs before counting the `{` at `obj`
   * finds one before `obj` exactly when the bytes from `cur` up to `obj` hold a `]`.
   */
  lemma ClosingProbe(file: seq<byte>, cur: int, obj: int)
    requires 0 <= cur <= obj < |file|
    ensures var close := FindPatternSpec(file, cur, CLOSE_BRACKET, obj - cur + CLOSE_SLACK);
      (close != -1 && close < obj) <==> exists q :: cur <= q < obj && OccursAt(file, CLOSE_BRACKET, q)
  {
    var budget := obj - cur + CLOSE_SLACK;
    ReachBounds(budget);
    var close := FindPatternSpec(file, cur, CLOSE_BRACKET, budget);
    FindPatternHit(file, cur, CLOSE_BRACKET, budget);
    if q :| cur <= q < obj && OccursAt(file, CLOSE_BRACKET, q) {
      FindPatternComplete(file, cur, CLOSE_BRACKET, budget, q);
    }
  }

  /**
   * One round of the counting loop: the next `{` from `cur`, or -1 when there is none
   * or the probe for `]` finds one before it.
   */
  function NextObject(file: seq<byte>, cur: int): int {
    var obj := FindPatternSpec(file, cur, OPEN_BRACE, OBJECT_BUDGET);
    if obj == -1 then -1
    else
      var close := FindPatternSpec(file, cur, CLOSE_BRACKET, obj - cur + CLOSE_SLACK);
      if close != -1 && close < obj then -1 else obj
  }

  /**
   * Positions of the `{` that the counting loop of `count_objects_debug` counts from
   * `cur`, with `count` objects counted already: each is the next `{` after the previous
   * one, as long as no `]` comes first and fewer than 1000 have been counted.
   */
  function Objects(file: seq<byte>, cur: int, count: nat): (objs: seq<int>)
    requires count <= MAX_OBJECTS
    ensures count + |objs| <= MAX_OBJECTS
    decreases MAX_OBJECTS - count
  {
    if count == MAX_OBJECTS then []
    else
      var obj := NextObject(file, cur);
      if obj == -1 then [] else [obj] + Objects(file, obj + 1, count + 1)
  }

  /**
   * The next object from `cur`, when there is one, is a `{` at or after `cur`, with
   * neither another `{` nor a `]` between `cur` and it.
   */
  lemma NextObjectFacts(file: seq<byte>, cur: int)
    ensures var obj := NextObject(file, cur);
      obj != -1 ==>
        0 <= cur <= obj && OccursAt(file, OPEN_BRACE, obj) &&
        (forall q :: cur <= q < obj ==> !OccursAt(file, OPEN_BRACE, q)) &&
        (forall q :: cur <= q < obj ==> !OccursAt(file, CLOSE_BRACKET, q))
  {
    var obj := FindPatternSpec(file, cur, OPEN_BRACE, OBJECT_BUDGET);
    if obj != -1 {
      FindPatternHit(file, cur, OPEN_BRACE, OBJECT_BUDGET);
      ClosingProbe(file, cur, obj);
    }
  }

  /** One round of the counting loop: it stops, or counts the next object and goes on after it. */
  lemma ObjectsStep(f: seq<byte>, cur: int, count: nat)
    requires count < MAX_OBJECTS
    ensures NextObject(f, cur) == -1 ==> Objects(f, cur, count) == []
    ensures NextObject(f, cur) != -1 ==>
      Objects(f, cur, count) == [NextObject(f, cur)] + Objects(f, NextObject(f, cur) + 1, count + 1)
  {
  }

  /** The counted positions are `{` bytes at or after `cur`. */
  lemma {:induction false} ObjectsAreBraces(file: seq<byte>, cur: int, count: nat)
    requires count <= MAX_OBJECTS
    ensures var objs := Objects(file, cur, count);
      forall i :: 0 <= i < |objs| ==> cur <= objs[i] && OccursAt(file, OPEN_BRACE, objs[i])
    decreases MAX_OBJECTS - count
  {
    hide NextObject;
    if count < MAX_OBJECTS {
      ObjectsStep(file, cur, count);
      NextObjectFacts(file, cur);
      var obj := NextObject(file, cur);
      if obj != -1 {
        ObjectsAreBraces(file, obj + 1, count + 1);
      }
    }
  }

  /** The counted positions come in increasing order. */
  lemma {:induction false} ObjectsIncreasing(file: seq<byte>, cur: int, count: nat)
    requires count <= MAX_OBJECTS
    ensures var objs := Objects(file, cur, count);
      forall i, j :: 0 <= i < j < |objs| ==> objs[i] < objs[j]
    decreases MAX_OBJECTS - count
  {
    hide NextObject;
    if count < MAX_OBJECTS {
      ObjectsStep(file, cur, count);
      var obj := NextObject(file, cur);
      if obj != -1 {
        ObjectsIncreasing(file, obj + 1, count + 1);
        ObjectsAreBraces(file, obj + 1, count + 1);
        var rest := Objects(file, obj + 1, count + 1);
        var objs := [obj] + rest;
        forall i, j | 0 <= i < j < |objs|
          ensures objs[i] < objs[j]
        {
          if i > 0 {
            assert objs[i] == rest[i - 1] && objs[j] == rest[j - 1];
          } else {
            assert objs[j] == rest[j - 1];
          }
        }
      }
    }
  }

  /**
   * No `]` lies between `cur` and the last counted position, and every `{` up to it is
   * counted.
   */
  lemma {:induction false} ObjectsComplete(file: seq<byte>, cur: int, count: nat)
    requires count <= MAX_OBJECTS
    ensures var objs := Objects(file, cur, count);
      |objs| > 0 ==>
        (forall q :: cur <= q < objs[|objs| - 1] ==> !OccursAt(file, CLOSE_BRACKET, q)) &&
        (forall q :: cur <= q <= objs[|objs| - 1] && OccursAt(file, OPEN_BRACE, q) ==> q in objs)
    decreases MAX_OBJECTS - count
  {
    hide NextObject;
    if count < MAX_OBJECTS {
      ObjectsStep(file, cur, count);
      NextObjectFacts(file, cur);
      var obj := NextObject(file, cur);
      if obj != -1 {
        ObjectsComplete(file, obj + 1, count + 1);
        var rest := Objects(file, obj + 1, count + 1);
        var objs := [obj] + rest;
        if |rest| > 0 {
          assert objs[|objs| - 1] == rest[|rest| - 1];
          assert !OccursAt(file, CLOSE_BRACKET, obj) by {
            assert file[obj..obj + 1][0] == file[obj];
          }
        }
      }
    }
  }

  /**
   * A round of the counting loop stops only when no `{` lies within the object budget
   * from `cur`, or the next `{` has a `]` before it.
   */
  lemma NextObjectStop(file: seq<byte>, cur: int)
    requires 0 <= cur && NextObject(file, cur) == -1
    ensures (forall q :: cur <= q < cur + OBJECT_BUDGET ==> !OccursAt(file, OPEN_BRACE, q)) ||
      (exists obj :: cur <= obj && OccursAt(file, OPEN_BRACE, obj) &&
         (forall q :: cur <= q < obj ==> !OccursAt(file, OPEN_BRACE, q)) &&
         (exists q :: cur <= q < obj && OccursAt(file, CLOSE_BRACKET, q)))
  {
    var obj := FindPatternSpec(file, cur, OPEN_BRACE, OBJECT_BUDGET);
    if obj == -1 {
      forall q | cur <= q < cur + OBJECT_BUDGET
        ensures !OccursAt(file, OPEN_BRACE, q)
      {
        if OccursAt(file, OPEN_BRACE, q) {
          FindPatternComplete(file, cur, OPEN_BRACE, OBJECT_BUDGET, q);
        }
      }
    } else {
      FindPatternHit(file, cur, OPEN_BRACE, OBJECT_BUDGET);
      ClosingProbe(file, cur, obj);
      var close := FindPatternSpec(file, cur, CLOSE_BRACKET, obj - cur + CLOSE_SLACK);
      assert close != -1 && close < obj;
      var q :| cur <= q < obj && OccursAt(file, CLOSE_BRACKET, q);
      assert cur <= obj && OccursAt(file, OPEN_BRACE, obj);
    }
  }

  /**
   * Why the counting loop stopped short of 1000: from just after the last counted `{`
   * (from `cur` when none is counted) either no `{` lies within the object budget, or
   * the next `{` has a `]` before it.
   */
  lemma {:induction false} ObjectsStop(file: seq<byte>, cur: int, count: nat)
    requires 0 <= cur && count <= MAX_OBJECTS
    requires count + |Objects(file, cur, count)| < MAX_OBJECTS
    ensures var objs := Objects(file, cur, count);
      var last := if objs == [] then cur else objs[|objs| - 1] + 1;
      (forall q :: last <= q < last + OBJECT_BUDGET ==> !OccursAt(file, OPEN_BRACE, q)) ||
      (exists obj :: last <= obj && OccursAt(file, OPEN_BRACE, obj) &&
         (forall q :: last <= q < obj ==> !OccursAt(file, OPEN_BRACE, q)) &&
         (exists q :: last <= q < obj && OccursAt(file, CLOSE_BRACKET, q)))
    decreases MAX_OBJECTS - count
  {
    hide NextObject;
    ObjectsStep(file, cur, count);
    NextObjectFacts(file, cur);
    var next := NextObject(file, cur);
    if next == -1 {
      NextObjectStop(file, cur);
    } else {
      ObjectsStop(file, next + 1, count + 1);
      var rest := Objects(file, next + 1, count + 1);
      if rest != [] {
        assert ([next] + rest)[|rest|] == rest[|rest| - 1];
      }
    }
  }

  /** Objects counted after the array's opening `[` at `bracket`. */
  function CountAfter(f: seq<byte>, bracket: int): nat {
    |Objects(f, bracket + 1, 0)|
  }

  /** What `count_objects_debug` returns for a file, or for a file that does not open. */
  function CountObjectsSpec(file: Option<seq<byte>>): int {
    match file
    case None => -1
    case Some(f) =>
      var keyPos := FindPatternSpec(f, 0, ALL_FILES_KEY, KEY_BUDGET);
      if keyPos == -1 then -1
      else
        var bracket := FindPatternSpec(f, keyPos, OPEN_BRACKET, BRACKET_BUDGET);
        if bracket == -1 then -1
        else CountAfter(f, bracket)
  }

  /**
   * The count is -1 exactly when the file does not open, has no `"allFiles":` or has
   * no `[` after it within reach; otherwise it is between 0 and 1000.
   */
  lemma CountObjectsRange(file: Option<seq<byte>>)
    ensures -1 <= CountObjectsSpec(file) <= MAX_OBJECTS as int
    ensures CountObjectsSpec(file) == -1 <==>
      file.None? ||
      FindPatternSpec(file.value, 0, ALL_FILES_KEY, KEY_BUDGET) == -1 ||
      FindPatternSpec(file.value, FindPatternSpec(file.value, 0, ALL_FILES_KEY, KEY_BUDGET),
                      OPEN_BRACKET, BRACKET_BUDGET) == -1
  {
  }

  /**
   * A non-negative count comes from a `"allFiles":` key and a `[` after it; it is the
   * number of objects `Objects` lists from just after that `[` (see `ObjectsAreBraces`,
   * `ObjectsIncreasing` and `ObjectsComplete` for what they are).
   */
  lemma CountedObjects(f: seq<byte>)
    requires CountObjectsSpec(Some(f)) >= 0
    ensures var keyPos := FindPatternSpec(f, 0, ALL_FILES_KEY, KEY_BUDGET);
      var bracket := FindPatternSpec(f, keyPos, OPEN_BRACKET, BRACKET_BUDGET);
      0 <= keyPos < bracket && OccursAt(f, ALL_FILES_KEY, keyPos) && OccursAt(f, OPEN_BRACKET, bracket) &&
      CountObjectsSpec(Some(f)) == |Objects(f, bracket + 1, 0)|
  {
    hide Objects;
    var keyPos := FindPatternSpec(f, 0, ALL_FILES_KEY, KEY_BUDGET);
    var bracket := FindPatternSpec(f, keyPos, OPEN_BRACKET, BRACKET_BUDGET);
    FindPatternHit(f, 0, ALL_FILES_KEY, KEY_BUDGET);
    FindPatternHit(f, keyPos, OPEN_BRACKET, BRACKET_BUDGET);
    assert f[keyPos] == 34 by {
      assert f[keyPos..keyPos + |ALL_FILES_KEY|][0] == f[keyPos];
    }
    assert f[bracket] == 91 by {
      assert f[bracket..bracket + 1][0] == f[bracket];
    }
  }

  /**
   * The body of the counting loop: the next `{` from `cur` and the probe for a `]`
   * before it; -1 ends the loop.
   */
  method FindNextObject(f: seq<byte>, cur: int) returns (obj: int)
    requires NulFree(f)
    ensures obj == NextObject(f, cur)
  {
    obj := FindPattern(f, cur, OPEN_BRACE, OBJECT_BUDGET);
    if obj == -1 {
      return -1;
    }
    var close := FindPattern(f, cur, CLOSE_BRACKET, obj - cur + CLOSE_SLACK);
    if close != -1 && close < obj {
      return -1;
    }
  }

  /** Invariant of the counting loop: `count` objects counted, the rest still ahead of `cur`. */
  ghost predicate Counted(f: seq<byte>, bracket: int, cur: int, count: nat) {
    count <= MAX_OBJECTS && count + |Objects(f, cur, count)| == CountAfter(f, bracket)
  }

  /** A round of the loop keeps `Counted`, or ends with all objects counted. */
  lemma CountedStep(f: seq<byte>, bracket: int, cur: int, count: nat)
    requires Counted(f, bracket, cur, count) && count < MAX_OBJECTS
    ensures NextObject(f, cur) == -1 ==> count == CountAfter(f, bracket)
    ensures NextObject(f, cur) != -1 ==> Counted(f, bracket, NextObject(f, cur) + 1, count + 1)
  {
    ObjectsStep(f, cur, count);
  }

  /** The counting loop of `count_objects_debug`, from just after the `[` at `bracket`. */
  method CountFrom(f: seq<byte>, bracket: int) returns (count: nat)
    requires NulFree(f)
    ensures count == CountAfter(f, bracket)
  {
    hide NextObject;
    var cur := bracket + 1;
    count := 0;
    while count < MAX_OBJECTS
      invariant Counted(f, bracket, cur, count)
    {
      CountedStep(f, bracket, cur, count);
      var obj := FindNextObject(f, cur);
      if obj == -1 {
        return;
      }
      count := count + 1;
      cur := obj + 1;
    }
  }

  /**
   * `count_objects_debug`: locates `"allFiles":` and the `[` after it, then counts `{`
   * positions one after the other until a `]` comes first, none is left, or 1000 have
   * been counted. `None` stands for a file that does not open.
   */
  method CountObjects(file: Option<seq<byte>>) returns (count: int)
    requires file.Some? ==> NulFree(file.value)
    ensures count == CountObjectsSpec(file)
  {
    if file.None? {
      return -1;
    }
    var f := file.value;
    var keyPos := FindPattern(f, 0, ALL_FILES_KEY, KEY_BUDGET);
    if keyPos == -1 {
      return -1;
    }
    var bracket := FindPattern(f, keyPos, OPEN_BRACKET, BRACKET_BUDGET);
    if bracket == -1 {
      return -1;
    }
    count := CountFrom(f, bracket);
  }
}
