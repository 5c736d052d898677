/**
 * Playback navigation of `audio_player.c`. The module's statics become one `Player`:
 * `player_state` is a `PlayerState` value that the operations update field by field,
 * the shuffle order (`shuffle_indices`, `shuffle_count`, `shuffle_pos`) is a
 * `ShuffleOrder`, and the I2S setting (`current_i2s_*`, `i2s_tx_chan`) is an `I2sChannel`.
 * The index the player walks is the record with song metadata (`OldRecord.Index`), the
 * layout whose fields `play_file` reads.
 */
module AudioPlayer {
  import opened Esp
  import opened ArrayWalk
  import opened OldRecord
  import JsonParser

  // ------------------------------------------------------------ modes and positions

  /** `playback_mode_t`. */
  const MODE_ALL_ORDER: nat := 0
  const MODE_ALL_SHUFFLE: nat := 1
  const MODE_FOLDER_ORDER: nat := 2
  const MODE_FOLDER_SHUFFLE: nat := 3
  const MODE_MAX: nat := 4

  /** `char current_file_path[256]`, and the `full_path[256]` buffers of the select functions. */
  const PATH_CAP := 256

  /** What `play_file` strips after the mount point and its `/`. */
  const MUSIC_PREFIX := "ESP32_MUSIC/"

  predicate FolderMode(mode: nat) {
    mode == MODE_FOLDER_ORDER || mode == MODE_FOLDER_SHUFFLE
  }

  predicate ShuffleMode(mode: nat) {
    mode == MODE_ALL_SHUFFLE || mode == MODE_FOLDER_SHUFFLE
  }

  /** C's `%` for a positive divisor: the remainder keeps the sign of the dividend. */
  function Rem(a: int, n: int): (r: int)
    requires n > 0
    ensures a >= 0 ==> 0 <= r < n
    ensures a <= 0 ==> -n < r <= 0
    ensures 0 <= a < n ==> r == a
    ensures a == n ==> r == 0
  {
    if a >= 0 then a % n else -((-a) % n)
  }

  /** `(i + 1) % n`: the step forward of every `next`. */
  function NextIndex(i: int, n: int): (r: int)
    requires n > 0
    ensures i >= -1 ==> 0 <= r < n
    ensures -1 <= i < n - 1 ==> r == i + 1
    ensures i == n - 1 ==> r == 0
  {
    Rem(i + 1, n)
  }

  /** `i == 0 ? n - 1 : i - 1`: the step back of every `prev`. */
  function PrevIndex(i: int, n: int): (r: int)
    requires n > 0
    ensures 0 <= i <= n ==> 0 <= r < n
    ensures i == 0 ==> r == n - 1
  {
    if i == 0 then n - 1 else i - 1
  }

  /** A step forward or back. */
  function StepIndex(i: int, n: int, forward: bool): (r: int)
    requires n > 0
    ensures 0 <= i < n ==> 0 <= r < n
  {
    if forward then NextIndex(i, n) else PrevIndex(i, n)
  }

  /** Within the range, a step back undoes a step forward and the other way round. */
  lemma PrevUndoesNext(i: int, n: int)
    requires 0 <= i < n
    ensures PrevIndex(NextIndex(i, n), n) == i
    ensures NextIndex(PrevIndex(i, n), n) == i
  {
  }

  /** The position after `k` steps forward from `i`. */
  function Forward(i: int, n: int, k: nat): int
    requires n > 0
  {
    if k == 0 then i else NextIndex(Forward(i, n, k - 1), n)
  }

  /** Up to `n` steps forward from `i` move `k` places, wrapping once past the end. */
  lemma {:induction false} ForwardShifts(i: int, n: int, k: nat)
    requires 0 <= i < n && k <= n
    ensures Forward(i, n, k) == if i + k < n then i + k else i + k - n
  {
    if k > 0 {
      ForwardShifts(i, n, k - 1);
    }
  }

  /** `n` steps forward come back to where they started. */
  lemma ForwardCycles(i: int, n: int)
    requires 0 <= i < n
    ensures Forward(i, n, n) == i
  {
    ForwardShifts(i, n, n);
  }

  /** Every position is reached within `n` steps forward, from any start. */
  lemma ForwardReaches(i: int, j: int, n: int)
    requires 0 <= i < n && 0 <= j < n
    ensures exists k :: 0 <= k < n && Forward(i, n, k) == j
  {
    var k := if j >= i then j - i else j - i + n;
    ForwardShifts(i, n, k);
  }

  // ------------------------------------------------------------ shuffle orders

  /** The identity order `0, 1, …, n-1` the generators start from. */
  function Identity(n: nat): (r: seq<int>)
    ensures |r| == n && forall k :: 0 <= k < n ==> r[k] == k
  {
    seq(n, k => k)
  }

  /** `s` orders the positions `0 … n-1`. */
  predicate IsShuffle(s: seq<int>, n: nat) {
    |s| == n && multiset(s) == multiset(Identity(n))
  }

  lemma {:induction false} IdentityCounts(n: nat, x: int)
    ensures multiset(Identity(n))[x] == if 0 <= x < n then 1 else 0
  {
    if n > 0 {
      assert Identity(n) == Identity(n - 1) + [n - 1];
      IdentityCounts(n - 1, x);
    }
  }

  /** A shuffle order names every position exactly once, and nothing else. */
  lemma ShuffleOnce(s: seq<int>, n: nat, x: int)
    requires IsShuffle(s, n)
    ensures multiset(s)[x] == if 0 <= x < n then 1 else 0
  {
    IdentityCounts(n, x);
  }

  /** Every cell of a shuffle order is a position. */
  lemma ShuffleInRange(s: seq<int>, n: nat)
    requires IsShuffle(s, n)
    ensures forall k :: 0 <= k < |s| ==> 0 <= s[k] < n
  {
    forall k | 0 <= k < |s|
      ensures 0 <= s[k] < n
    {
      assert s[k] in multiset(s);
      ShuffleOnce(s, n, s[k]);
    }
  }

  /**
   * `shuffle_array`: Fisher–Yates from the last cell down, swapping cell `i` with a cell
   * `j` in `[0, i]`. `rand() % (i + 1)` is any such `j`.
   */
  method ShuffleArray(a: array<int>)
    modifies a
    ensures multiset(a[..]) == multiset(old(a[..]))
  {
    var i := a.Length - 1;
    while i > 0
      invariant -1 <= i < a.Length
      invariant multiset(a[..]) == multiset(old(a[..]))
    {
      var j :| 0 <= j <= i;
      a[i], a[j] := a[j], a[i];
      i := i - 1;
    }
  }

  /** `shuffle_indices`, `shuffle_count` and `shuffle_pos`. */
  class ShuffleOrder {
    var indices: array?<int>
    var count: int
    var pos: int

    /** A NULL order has count and position 0; a live one orders its `count` positions. */
    predicate Valid()
      reads this, indices
    {
      (indices == null ==> count == 0 && pos == 0) &&
      (indices != null ==> indices.Length == count && 0 <= pos < count && IsShuffle(indices[..], count))
    }

    /** The order as a value: `None` while the pointer is NULL. */
    function Order(): (o: Option<seq<int>>)
      reads this, indices
      ensures o.None? <==> indices == null
    {
      if indices == null then None else Some(indices[..])
    }

    /** What a generator leaves for length `n`: nothing for `n <= 0`, else a fresh order at its start. */
    predicate Holds(n: int)
      reads this, indices
    {
      if n <= 0 then indices == null && count == 0 && pos == 0
      else indices != null && count == n && pos == 0 && IsShuffle(indices[..], n)
    }

    /** The statics before any order exists. */
    constructor()
      ensures Valid() && indices == null && count == 0 && pos == 0
    {
      indices := null;
      count := 0;
      pos := 0;
    }

    /** `free_shuffle_indices`: only a live order resets the count and the position. */
    method Free()
      modifies this
      ensures indices == null
      ensures old(indices) != null ==> count == 0 && pos == 0
      ensures old(indices) == null ==> count == old(count) && pos == old(pos)
    {
      if indices != null {
        indices := null;
        count := 0;
        pos := 0;
      }
    }

    /** The part of both generators after their checks: the identity of length `n`, shuffled. */
    method Build(n: int)
      requires n > 0
      modifies this
      ensures Valid() && Holds(n) && fresh(indices)
    {
      count := n;
      var a := new int[n];
      indices := a;
      var i := 0;
      while i < n
        invariant 0 <= i <= n && indices == a && count == n
        invariant forall k :: 0 <= k < i ==> a[k] == k
      {
        a[i] := i;
        i := i + 1;
      }
      assert a[..] == Identity(n);
      ShuffleArray(a);
      pos := 0;
    }
  }

  // ------------------------------------------------------------ the loaded index

  /** A folder the player can walk: a count within its array, every counted cell written. */
  predicate FolderLoaded(d: Folder) {
    0 <= d.fileCount &&
    (d.files.None? ==> d.fileCount == 0) &&
    (d.files.Some? ==> d.fileCount <= |d.files.value| && forall k :: 0 <= k < d.fileCount ==> d.files.value[k].Set?)
  }

  /**
   * What the player reads of `music_index`: counts within their arrays, every counted cell
   * written, and folder indices of files that are not negative.
   */
  predicate Loaded(ix: Index) {
    0 <= ix.totalFiles && 0 <= ix.folderCount &&
    (ix.allFiles.None? ==> ix.totalFiles == 0) &&
    (ix.allFiles.Some? ==>
       ix.totalFiles <= |ix.allFiles.value| &&
       forall k :: 0 <= k < ix.totalFiles ==> ix.allFiles.value[k].Set? && ix.allFiles.value[k].value.folderIndex >= 0) &&
    (ix.folders.None? ==> ix.folderCount == 0) &&
    (ix.folders.Some? ==>
       ix.folderCount <= |ix.folders.value| &&
       forall f :: 0 <= f < ix.folderCount ==> ix.folders.value[f].Set? && FolderLoaded(ix.folders.value[f].value))
  }

  /** The `total_files` entries of `all_files`. */
  function Files(ix: Index): (r: seq<Entry>)
    requires Loaded(ix)
    ensures |r| == ix.totalFiles && forall k :: 0 <= k < |r| ==> r[k].folderIndex >= 0
  {
    seq(ix.totalFiles, k requires 0 <= k < ix.totalFiles => ix.allFiles.value[k].value)
  }

  /** The `file_count` entries of folder `f`. */
  function FolderFiles(ix: Index, f: int): (r: seq<Entry>)
    requires Loaded(ix) && 0 <= f < ix.folderCount
    ensures |r| == ix.folders.value[f].value.fileCount
  {
    var d := ix.folders.value[f].value;
    seq(d.fileCount, k requires 0 <= k < d.fileCount => d.files.value[k].value)
  }

  /** The `strcmp` loops: the first entry whose path is `rel`, or -1. */
  function PathIndex(entries: seq<Entry>, rel: string): (r: int)
    ensures -1 <= r < |entries|
    ensures r >= 0 ==> entries[r].path == rel && forall k :: 0 <= k < r ==> entries[k].path != rel
    ensures r == -1 ==> forall k :: 0 <= k < |entries| ==> entries[k].path != rel
  {
    if |entries| == 0 then -1
    else if entries[0].path == rel then 0
    else
      var r := PathIndex(entries[1..], rel);
      if r == -1 then -1 else r + 1
  }

  /** The loop of `play_file` and of `update_current_folder_index_for_file`. */
  method FindPath(entries: seq<Entry>, rel: string) returns (k: int)
    ensures k == PathIndex(entries, rel)
  {
    k := 0;
    while k < |entries|
      invariant 0 <= k <= |entries|
      invariant forall m :: 0 <= m < k ==> entries[m].path != rel
    {
      if entries[k].path == rel {
        return;
      }
      k := k + 1;
    }
    k := -1;
  }

  // ------------------------------------------------------------ paths

  /**
   * The path relative to the music directory: the mount point, one `/` after it and
   * `ESP32_MUSIC/` are stripped, each only where present; a path not under the mount point
   * is kept whole.
   */
  function Relative(mount: string, p: string): (r: string)
    ensures |r| <= |p| && r == p[|p| - |r|..]
  {
    if mount <= p then
      var q := p[|mount|..];
      var q' := if |q| > 0 && q[0] == '/' then q[1..] else q;
      if MUSIC_PREFIX <= q' then q'[|MUSIC_PREFIX|..] else q'
    else p
  }

  /** `json_get_full_path(rel, full_path, sizeof(full_path))` as the select functions call it. */
  function FullPathOf(mount: string, rel: string): (r: string)
    ensures |r| < PATH_CAP
  {
    JsonParser.FullPath(mount, Some(rel), Some(""), PATH_CAP).value
  }

  /**
   * Stripping undoes `json_get_full_path`: it gives back the relative path, or the part of
   * it that fitted in the buffer.
   */
  lemma RelativeOfFullPath(mount: string, rel: string)
    requires |mount| + |JsonParser.MUSIC_DIR| + 1 < PATH_CAP
    ensures var r := Relative(mount, FullPathOf(mount, rel)); |r| <= |rel| && r == rel[..|r|]
    ensures |mount| + |JsonParser.MUSIC_DIR| + 1 + |rel| < PATH_CAP ==> Relative(mount, FullPathOf(mount, rel)) == rel
  {
    var head := mount + "/" + MUSIC_PREFIX;
    assert |head| == |mount| + 13;
    var full := mount + JsonParser.MUSIC_DIR + "/" + rel;
    assert full == head + rel;
    var t := rel[..if |rel| <= PATH_CAP - 1 - |head| then |rel| else PATH_CAP - 1 - |head|];
    assert FullPathOf(mount, rel) == Truncate(full, PATH_CAP);
    assert Truncate(full, PATH_CAP) == head + t;
    var p := head + t;
    assert mount <= p;
    var q := p[|mount|..];
    assert q == "/" + MUSIC_PREFIX + t;
    assert q[1..] == MUSIC_PREFIX + t;
    assert MUSIC_PREFIX <= MUSIC_PREFIX + t;
    assert (MUSIC_PREFIX + t)[|MUSIC_PREFIX|..] == t;
  }

  // ------------------------------------------------------------ I2S

  /** `I2S_SLOT_MODE_MONO` and `I2S_SLOT_MODE_STEREO`. */
  datatype SlotMode = Mono | Stereo

  /** What a standard-mode channel is initialised with: rate, data (and slot) width, slot mode. */
  datatype StdConfig = StdConfig(rate: int, width: nat, slots: SlotMode)

  /** The parameters `configure_i2s` is called with, and the three statics that remember them. */
  datatype I2sSetting = I2sSetting(rate: int, depth: int, channels: int)

  /** The bit-depth `switch`: 8, 16, 24 and 32 bits keep their width, anything else is 16. */
  function DataWidth(depth: int): (w: nat)
    ensures w == 8 || w == 16 || w == 24 || w == 32
    ensures w == depth <==> depth == 8 || depth == 16 || depth == 24 || depth == 32
  {
    match depth
    case 8 => 8
    case 16 => 16
    case 24 => 24
    case 32 => 32
    case _ => 16
  }

  /** One channel is mono; any other count is stereo. */
  function SlotModeOf(channels: int): (m: SlotMode)
    ensures m == Mono <==> channels == 1
  {
    if channels == 1 then Mono else Stereo
  }

  /** A value converted to `uint16_t` (modulo 2^16). */
  function U16(x: int): (r: int)
    ensures 0 <= r < 0x1_0000 && (0 <= x < 0x1_0000 ==> r == x)
  {
    x % 0x1_0000
  }

  /** A value converted to `uint32_t` (modulo 2^32). */
  function U32(x: int): (r: int)
    ensures 0 <= r < 0x1_0000_0000 && (0 <= x < 0x1_0000_0000 ==> r == x)
  {
    x % 0x1_0000_0000
  }

  /** The setting `play_file` asks for: the entry's numbers converted to the parameter types. */
  function SettingOf(e: Entry): I2sSetting {
    I2sSetting(U32(e.sampleRate), U16(e.bitDepth), U16(e.channels))
  }

  /** The I2S statics: the remembered setting and the TX channel handle. */
  class I2sChannel {
    /** `current_i2s_sample_rate`, `current_i2s_bit_depth`, `current_i2s_channels`. */
    var current: I2sSetting
    /** `i2s_tx_chan`: `None` while NULL, else the configuration of the enabled channel. */
    var channel: Option<StdConfig>

    constructor()
      ensures current == I2sSetting(0, 0, 0) && channel.None?
    {
      current := I2sSetting(0, 0, 0);
      channel := None;
    }

    /**
     * `configure_i2s`: nothing to do for an unchanged setting; otherwise the channel is
     * deleted and built again. `driver` is what the first failing driver call returned
     * (ESP_OK when all of them succeeded); after a failure the channel is gone and the
     * remembered setting is the old one.
     */
    method Configure(want: I2sSetting, driver: ErrCode) returns (r: ErrCode)
      modifies this
      ensures old(current) == want ==> r == EspOk && current == old(current) && channel == old(channel)
      ensures old(current) != want ==> r == driver
      ensures old(current) != want && r == EspOk ==>
        current == want && channel == Some(StdConfig(want.rate, DataWidth(want.depth), SlotModeOf(want.channels)))
      ensures old(current) != want && r != EspOk ==> current == old(current) && channel.None?
    {
      if current == want {
        return EspOk;
      }
      channel := None;
      var config := StdConfig(want.rate, DataWidth(want.depth), SlotModeOf(want.channels));
      if driver != EspOk {
        return driver;
      }
      channel := Some(config);
      current := want;
      r := EspOk;
    }
  }

  // ------------------------------------------------------------ player state

  /** `player_state_t` with the fields `audio_player.c` writes. */
  datatype PlayerState = PlayerState(mode: nat, fileIndex: int, folderIndex: int, playing: bool,
                                     filePath: string, song: string, album: string, artist: string,
                                     sampleRate: int, bitDepth: int, channels: int)

  /** The static `player_state` before anything is loaded: all zero. */
  function ZeroState(): PlayerState {
    PlayerState(MODE_ALL_ORDER, 0, 0, false, "", "", "", "", 0, 0, 0)
  }

  /** The navigation part of the statics: mode, positions, shuffle order and its position. */
  datatype Nav = Nav(mode: nat, file: int, folder: int, order: Option<seq<int>>, pos: int)

  /**
   * The validation in `audio_player_load_state`: a mode out of range becomes
   * ALL_ORDER, a folder index at or past the folder count becomes 0, nothing else changes.
   */
  function Validated(s: PlayerState, folderCount: int): (r: PlayerState)
    ensures r.mode < MODE_MAX
    ensures r.folderIndex < folderCount || r.folderIndex == 0
    ensures r == s <==> s.mode < MODE_MAX && (s.folderIndex < folderCount || s.folderIndex == 0)
    ensures r == s.(mode := r.mode, folderIndex := r.folderIndex)
  {
    s.(mode := if s.mode >= MODE_MAX then MODE_ALL_ORDER else s.mode,
       folderIndex := if s.folderIndex >= folderCount then 0 else s.folderIndex)
  }

  /** The state after a failed load: defaults for mode, positions, flag and path. */
  function Defaults(s: PlayerState): (r: PlayerState)
    ensures r.mode == MODE_ALL_ORDER && r.fileIndex == 0 && r.folderIndex == 0 && !r.playing && r.filePath == ""
    ensures r.song == s.song && r.album == s.album && r.artist == s.artist
    ensures r.sampleRate == s.sampleRate && r.bitDepth == s.bitDepth && r.channels == s.channels
  {
    s.(mode := MODE_ALL_ORDER, fileIndex := 0, folderIndex := 0, playing := false, filePath := "")
  }

  /**
   * `update_current_folder_index_for_file` for the relative path `rel`: the first file
   * with that path gives its folder; when the folder exists and holds the path, the file
   * position becomes the path's position in it.
   */
  function Locate(ix: Index, st: PlayerState, rel: string): (r: PlayerState)
    requires Loaded(ix)
    ensures PathIndex(Files(ix), rel) == -1 ==> r == st
    ensures PathIndex(Files(ix), rel) != -1 ==>
      r == st.(folderIndex := r.folderIndex, fileIndex := r.fileIndex) &&
      r.folderIndex == Files(ix)[PathIndex(Files(ix), rel)].folderIndex
    ensures (0 <= r.folderIndex < ix.folderCount && PathIndex(Files(ix), rel) != -1 &&
             PathIndex(FolderFiles(ix, r.folderIndex), rel) != -1) ==>
      0 <= r.fileIndex < |FolderFiles(ix, r.folderIndex)| && FolderFiles(ix, r.folderIndex)[r.fileIndex].path == rel
  {
    var files := Files(ix);
    var k := PathIndex(files, rel);
    if k == -1 then st
    else
      var f := files[k].folderIndex;
      if f < ix.folderCount then
        var j := PathIndex(FolderFiles(ix, f), rel);
        if j == -1 then st.(folderIndex := f) else st.(folderIndex := f, fileIndex := j)
      else st.(folderIndex := f)
  }

  /** `audio_player_set_mode(m)` on the state: locate the current file for a folder mode, store `m`. */
  function ModeSet(ix: Index, mount: string, st: PlayerState, m: nat): (r: PlayerState)
    requires Loaded(ix)
    ensures r.mode == m
    ensures !FolderMode(m) || |st.filePath| == 0 ==> r == st.(mode := m)
  {
    (if FolderMode(m) && |st.filePath| > 0 then Locate(ix, st, Relative(mount, st.filePath)) else st).(mode := m)
  }

  /** The folder index may be used to index the folder array: negative only when out of range anyway. */
  predicate SafeFolder(ix: Index, mode: nat, folder: int) {
    FolderMode(mode) && folder < ix.folderCount ==> 0 <= folder
  }

  /** The length of the order `generate_shuffle_folder` builds for folder `f`. */
  function FolderShuffleSize(ix: Index, f: int): (n: int)
    requires Loaded(ix) && (f < ix.folderCount ==> 0 <= f)
    ensures n >= 0
  {
    if ix.folderCount == 0 || f >= ix.folderCount then 0 else |FolderFiles(ix, f)|
  }

  /** The length of the order `update_shuffle_list` leaves: 0 outside the shuffle modes. */
  function ShuffleSize(ix: Index, st: PlayerState): (n: int)
    requires Loaded(ix) && (st.mode == MODE_FOLDER_SHUFFLE ==> SafeFolder(ix, st.mode, st.folderIndex))
    ensures n >= 0
    ensures !ShuffleMode(st.mode) ==> n == 0
    ensures st.mode == MODE_ALL_SHUFFLE ==> n == ix.totalFiles
  {
    if st.mode == MODE_ALL_SHUFFLE then ix.totalFiles
    else if st.mode == MODE_FOLDER_SHUFFLE then FolderShuffleSize(ix, st.folderIndex)
    else 0
  }

  // ------------------------------------------------------------ file and folder moves

  /** The files `next` and `prev` move through: all of them, or the current folder's. */
  function Playlist(ix: Index, mode: nat, folder: int): seq<Entry>
    requires Loaded(ix) && (FolderMode(mode) ==> 0 <= folder < ix.folderCount)
  {
    if FolderMode(mode) then FolderFiles(ix, folder) else Files(ix)
  }

  /**
   * When `select_next_file` and `select_prev_file` return ESP_FAIL before changing
   * anything: an empty index, an unknown mode, a folder mode without a valid folder, or
   * an empty folder in folder order.
   */
  predicate Stuck(ix: Index, mode: nat, folder: int)
    requires Loaded(ix) && SafeFolder(ix, mode, folder)
  {
    ix.totalFiles == 0 || mode >= MODE_MAX ||
    (FolderMode(mode) && (ix.folderCount == 0 || folder >= ix.folderCount)) ||
    (mode == MODE_FOLDER_ORDER && |FolderFiles(ix, folder)| == 0)
  }

  /**
   * The move of `select_next_file` (`step` is `NextIndex`) or `select_prev_file` (`step`
   * is `PrevIndex`) from `a` to `b`: in order, the file position steps within the list;
   * shuffled, the shuffle position steps, in the old order when it has the list's length
   * and in a new one from position 0 otherwise, and the file is the one the order names
   * there.
   */
  predicate Moved(ix: Index, a: Nav, b: Nav, forward: bool)
    requires Loaded(ix) && SafeFolder(ix, a.mode, a.folder) && !Stuck(ix, a.mode, a.folder)
  {
    var n := |Playlist(ix, a.mode, a.folder)|;
    n > 0 && b.mode == a.mode && b.folder == a.folder && 0 <= b.file < n &&
    if !ShuffleMode(a.mode) then
      b.file == StepIndex(a.file, n, forward) &&
      b.order == a.order && b.pos == a.pos
    else
      var from := if a.order.Some? && |a.order.value| == n then a.pos else 0;
      b.order.Some? && IsShuffle(b.order.value, n) &&
      (a.order.Some? && |a.order.value| == n ==> b.order == a.order) &&
      b.pos == StepIndex(from, n, forward) &&
      0 <= b.pos < n && b.file == b.order.value[b.pos]
  }

  /** What `select_next_file` needs for its array reads to stay inside the arrays. */
  predicate NextReadable(ix: Index, st: PlayerState)
    requires Loaded(ix) && SafeFolder(ix, st.mode, st.folderIndex)
  {
    (st.mode == MODE_ALL_ORDER && ix.totalFiles > 0 ==> 0 <= Rem(st.fileIndex + 1, ix.totalFiles)) &&
    (st.mode == MODE_FOLDER_ORDER && 0 <= st.folderIndex < ix.folderCount && |FolderFiles(ix, st.folderIndex)| > 0 ==>
      0 <= Rem(st.fileIndex + 1, |FolderFiles(ix, st.folderIndex)|)) &&
    (st.mode == MODE_FOLDER_SHUFFLE && 0 <= st.folderIndex < ix.folderCount ==> |FolderFiles(ix, st.folderIndex)| > 0)
  }

  /** What `select_prev_file` needs for its array reads to stay inside the arrays. */
  predicate PrevReadable(ix: Index, st: PlayerState)
    requires Loaded(ix) && SafeFolder(ix, st.mode, st.folderIndex)
  {
    (st.mode == MODE_ALL_ORDER ==> 0 <= st.fileIndex <= ix.totalFiles) &&
    (st.mode == MODE_FOLDER_ORDER && 0 <= st.folderIndex < ix.folderCount ==>
      0 <= st.fileIndex <= |FolderFiles(ix, st.folderIndex)|) &&
    (st.mode == MODE_FOLDER_SHUFFLE && 0 <= st.folderIndex < ix.folderCount ==> |FolderFiles(ix, st.folderIndex)| > 0)
  }

  /** What the folder step needs for its read of the folder array to stay inside it. */
  predicate FolderStepReadable(ix: Index, st: PlayerState, forward: bool) {
    ix.folderCount > 0 ==>
      if forward then 0 <= Rem(st.folderIndex + 1, ix.folderCount) else 0 <= st.folderIndex <= ix.folderCount
  }

  /**
   * Back after forth: from a position inside the list (and, shuffled, the file the order
   * names at the current shuffle position of an order of the list's length), `prev`
   * after `next` returns to the same file, order and shuffle position.
   */
  lemma PrevAfterNext(ix: Index, a: Nav, b: Nav, c: Nav)
    requires Loaded(ix) && SafeFolder(ix, a.mode, a.folder) && !Stuck(ix, a.mode, a.folder)
    requires Moved(ix, a, b, true) && Moved(ix, b, c, false)
    requires !ShuffleMode(a.mode) ==> 0 <= a.file < |Playlist(ix, a.mode, a.folder)|
    requires ShuffleMode(a.mode) ==>
      a.order.Some? && |a.order.value| == |Playlist(ix, a.mode, a.folder)| &&
      0 <= a.pos < |a.order.value| && a.file == a.order.value[a.pos]
    ensures c == a
  {
    var n := |Playlist(ix, a.mode, a.folder)|;
    if ShuffleMode(a.mode) {
      PrevUndoesNext(a.pos, n);
    } else {
      PrevUndoesNext(a.file, n);
    }
  }

  /**
   * The move of `select_next_folder` / `select_prev_folder` to folder `target`: the file
   * position is reset to 0; in folder shuffle a new order is built for the target folder
   * and the file is its first entry, while other modes keep the order they had.
   */
  predicate FolderMoved(ix: Index, a: Nav, b: Nav, target: int)
    requires Loaded(ix) && 0 <= target < ix.folderCount
  {
    var m := |FolderFiles(ix, target)|;
    b.mode == a.mode && b.folder == target &&
    (m > 0 ==> 0 <= b.file < m) &&
    if a.mode == MODE_FOLDER_SHUFFLE then
      (m > 0 ==> b.order.Some? && IsShuffle(b.order.value, m) && b.pos == 0 && b.file == b.order.value[0]) &&
      (m == 0 ==> b.order.None? && b.pos == 0 && b.file == 0)
    else
      b.order == a.order && b.pos == a.pos && b.file == 0
  }

  /** `next_folder` then `prev_folder` returns to the folder it started from. */
  lemma FolderBackAndForth(ix: Index, a: Nav, b: Nav, c: Nav)
    requires Loaded(ix) && 0 <= a.folder < ix.folderCount
    requires FolderMoved(ix, a, b, NextIndex(a.folder, ix.folderCount))
    requires FolderMoved(ix, b, c, PrevIndex(b.folder, ix.folderCount))
    ensures c.folder == a.folder && c.mode == a.mode
  {
    PrevUndoesNext(a.folder, ix.folderCount);
  }

  /** The state after `play_file` took entry `e` for the path `full`. */
  function NowPlaying(st: PlayerState, full: string, e: Entry, caps: Sizes): (r: PlayerState)
    requires caps.Valid()
    ensures r == st.(filePath := r.filePath, song := r.song, album := r.album, artist := r.artist,
                     sampleRate := e.sampleRate, bitDepth := e.bitDepth, channels := e.channels)
    ensures r.filePath == Truncate(full, PATH_CAP) && r.song == Truncate(e.song, caps.song)
    ensures r.album == Truncate(e.album, caps.album) && r.artist == Truncate(e.artist, caps.artist)
  {
    st.(filePath := Truncate(full, PATH_CAP), song := Truncate(e.song, caps.song),
        album := Truncate(e.album, caps.album), artist := Truncate(e.artist, caps.artist),
        sampleRate := e.sampleRate, bitDepth := e.bitDepth, channels := e.channels)
  }

  /**
   * The state `play_file(full)` leaves from `st0` with result `r`: a path not in the index
   * fails and changes nothing; success records the path and the entry's metadata; any
   * other failure changes nothing.
   */
  predicate Played(ix: Index, mount: string, caps: Sizes, full: string, st0: PlayerState, st1: PlayerState, r: ErrCode)
    requires Loaded(ix) && caps.Valid()
  {
    var k := PathIndex(Files(ix), Relative(mount, full));
    if k == -1 then r == EspFail && st1 == st0
    else if r == EspOk then st1 == NowPlaying(st0, full, Files(ix)[k], caps)
    else st1 == st0
  }

  // ------------------------------------------------------------ the player

  class Player {
    /** `player_state`. */
    var state: PlayerState
    /** `music_index`. */
    var music: Index
    const order: ShuffleOrder
    const i2s: I2sChannel
    /** What `sd_card_get_mount_point` returns. */
    const mount: string
    /** Capacities of `current_song`, `current_album` and `current_artist` (`song`, `album`, `artist`). */
    const caps: Sizes

    predicate Valid()
      reads this, order, order.indices
    {
      Loaded(music) && order.Valid() && caps.Valid()
    }

    /** The navigation statics as a value. */
    function Navigation(): Nav
      reads this, order, order.indices
    {
      Nav(state.mode, state.fileIndex, state.folderIndex, order.Order(), order.pos)
    }

    /** The statics at start-up, with the index `music` loaded. */
    constructor(mount: string, caps: Sizes, music: Index)
      requires Loaded(music) && caps.Valid()
      ensures Valid() && state == ZeroState() && this.music == music
      ensures this.mount == mount && this.caps == caps
      ensures order.indices == null && i2s.current == I2sSetting(0, 0, 0) && i2s.channel.None?
    {
      state := ZeroState();
      this.music := music;
      order := new ShuffleOrder();
      i2s := new I2sChannel();
      this.mount := mount;
      this.caps := caps;
    }

    /** `generate_shuffle_all`. */
    method GenerateShuffleAll()
      requires Valid()
      modifies order
      ensures Valid() && order.Holds(music.totalFiles)
    {
      order.Free();
      if music.totalFiles <= 0 {
        return;
      }
      order.Build(music.totalFiles);
    }

    /** `generate_shuffle_folder`. */
    method GenerateShuffleFolder()
      requires Valid() && (state.folderIndex < music.folderCount ==> 0 <= state.folderIndex)
      modifies order
      ensures Valid() && order.Holds(FolderShuffleSize(music, state.folderIndex))
    {
      order.Free();
      if music.folderCount == 0 || state.folderIndex >= music.folderCount {
        return;
      }
      var d := music.folders.value[state.folderIndex].value;
      if d.fileCount <= 0 {
        return;
      }
      order.Build(d.fileCount);
    }

    /** `update_shuffle_list`: an order for the shuffle modes, none for the others. */
    method UpdateShuffleList()
      requires Valid() && (state.mode == MODE_FOLDER_SHUFFLE ==> SafeFolder(music, state.mode, state.folderIndex))
      modifies order
      ensures Valid() && order.Holds(ShuffleSize(music, state))
    {
      if state.mode == MODE_ALL_SHUFFLE {
        GenerateShuffleAll();
      } else if state.mode == MODE_FOLDER_SHUFFLE {
        GenerateShuffleFolder();
      } else {
        order.Free();
      }
    }

    /** `update_current_folder_index_for_file`. */
    method UpdateFolderIndexForFile(path: string)
      requires Valid()
      modifies this
      ensures music == old(music)
      ensures state == Locate(music, old(state), Relative(mount, path))
    {
      var rel := Relative(mount, path);
      var files := Files(music);
      var k := FindPath(files, rel);
      if k == -1 {
        return;
      }
      state := state.(folderIndex := files[k].folderIndex);
      if state.folderIndex < music.folderCount {
        var j := FindPath(FolderFiles(music, state.folderIndex), rel);
        if j != -1 {
          state := state.(fileIndex := j);
        }
      }
    }

    /**
     * `audio_player_set_mode`: an unknown mode is refused; otherwise a folder mode first
     * locates the current file, the mode is stored and the shuffle order rebuilt for it.
     */
    method SetMode(m: nat) returns (r: ErrCode)
      requires Valid()
      requires m == MODE_FOLDER_SHUFFLE ==> 0 <= ModeSet(music, mount, state, m).folderIndex
      modifies this, order
      ensures Valid() && music == old(music)
      ensures m >= MODE_MAX ==> r == InvalidArg && state == old(state) && Navigation() == old(Navigation())
      ensures m < MODE_MAX ==> r == EspOk && state == ModeSet(music, mount, old(state), m)
      ensures m < MODE_MAX ==> order.Holds(ShuffleSize(music, state))
    {
      if m >= MODE_MAX {
        return InvalidArg;
      }
      if FolderMode(m) && |state.filePath| > 0 {
        UpdateFolderIndexForFile(state.filePath);
      }
      state := state.(mode := m);
      UpdateShuffleList();
      r := EspOk;
    }

    /**
     * `audio_player_load_state`. `mounted` is `sd_card_is_mounted()`; `read` what
     * `sd_card_read_file` returned and `complete` whether it read the whole struct;
     * `image` is what the struct holds after the read. A complete read is validated; any
     * other outcome restores the defaults.
     */
    method LoadState(mounted: bool, read: ErrCode, complete: bool, image: PlayerState) returns (r: ErrCode)
      modifies this
      ensures music == old(music)
      ensures !mounted ==> r == InvalidState && state == old(state)
      ensures mounted && read == EspOk && complete ==> r == EspOk && state == Validated(image, music.folderCount)
      ensures mounted && !(read == EspOk && complete) ==> r == NotFound && state == Defaults(image)
    {
      if !mounted {
        return InvalidState;
      }
      state := image;
      if read == EspOk && complete {
        if state.mode >= MODE_MAX {
          state := state.(mode := MODE_ALL_ORDER);
        }
        if state.folderIndex >= music.folderCount {
          state := state.(folderIndex := 0);
        }
        return EspOk;
      }
      state := state.(mode := MODE_ALL_ORDER, fileIndex := 0, folderIndex := 0, playing := false, filePath := "");
      r := NotFound;
    }

    /**
     * `play_file(full)`, after the file-opening and saving steps: the path is stripped to
     * its relative form and looked up among all files; the I2S channel is set up for the
     * entry (`driver` as for `I2sChannel.Configure`); `open` is what `pcm_file_open`
     * returned. Success records the path and the entry's metadata.
     */
    method PlayFile(full: string, driver: ErrCode, open: ErrCode) returns (r: ErrCode)
      requires Valid()
      modifies this, i2s
      ensures Valid() && music == old(music) && Navigation() == old(Navigation())
      ensures Played(music, mount, caps, full, old(state), state, r)
      ensures var k := PathIndex(Files(music), Relative(mount, full));
        k != -1 ==>
          var want := SettingOf(Files(music)[k]);
          var configured := if old(i2s.current) == want then EspOk else driver;
          r == (if configured != EspOk then configured else open) && (configured == EspOk ==> i2s.current == want)
    {
      var rel := Relative(mount, full);
      var files := Files(music);
      var k := FindPath(files, rel);
      if k == -1 {
        return EspFail;
      }
      var e := files[k];
      r := i2s.Configure(SettingOf(e), driver);
      if r != EspOk {
        return;
      }
      if open != EspOk {
        return open;
      }
      state := NowPlaying(state, full, e, caps);
    }

    /**
     * The shuffled step of the select functions for a list of `n` files: an order of
     * another length (or none) is replaced by a new one for the mode; then the shuffle
     * position steps and the file is the one the order names there.
     */
    method StepShuffled(n: int, forward: bool)
      requires Valid() && ShuffleMode(state.mode) && n > 0
      requires state.mode == MODE_ALL_SHUFFLE ==> n == music.totalFiles
      requires state.mode == MODE_FOLDER_SHUFFLE ==>
        0 <= state.folderIndex < music.folderCount && n == |FolderFiles(music, state.folderIndex)|
      modifies this, order
      ensures Valid() && music == old(music) && state == old(state).(fileIndex := state.fileIndex)
      ensures order.indices != null && order.count == n && IsShuffle(order.indices[..], n)
      ensures old(order.indices) != null && old(order.count) == n ==> order.Order() == old(order.Order())
      ensures order.pos == StepIndex(if old(order.indices) != null && old(order.count) == n then old(order.pos) else 0, n, forward)
      ensures 0 <= order.pos < n && state.fileIndex == order.indices[order.pos] && 0 <= state.fileIndex < n
    {
      hide Loaded, Files, FolderFiles, IsShuffle, StepIndex;
      if order.indices == null || order.count != n {
        if state.mode == MODE_ALL_SHUFFLE {
          GenerateShuffleAll();
        } else {
          GenerateShuffleFolder();
        }
      }
      order.pos := StepIndex(order.pos, order.count, forward);
      ShuffleInRange(order.indices[..], order.count);
      state := state.(fileIndex := order.indices[order.pos]);
    }

    /** The all-files branches of `select_next_file` and `select_prev_file`. */
    method StepAllFiles(forward: bool) returns (path: Option<string>)
      requires Valid() && music.totalFiles > 0
      requires state.mode == MODE_ALL_ORDER || state.mode == MODE_ALL_SHUFFLE
      requires if forward then NextReadable(music, state) else PrevReadable(music, state)
      modifies this, order
      ensures Valid() && music == old(music) && state == old(state).(fileIndex := state.fileIndex)
      ensures Moved(music, old(Navigation()), Navigation(), forward)
      ensures path == Some(FullPathOf(mount, Files(music)[state.fileIndex].path))
    {
      hide Loaded, IsShuffle, FullPathOf, Rem, FolderFiles;
      var files := Files(music);
      if state.mode == MODE_ALL_ORDER {
        state := state.(fileIndex := StepIndex(state.fileIndex, |files|, forward));
      } else {
        StepShuffled(|files|, forward);
      }
      path := Some(FullPathOf(mount, files[state.fileIndex].path));
    }

    /** The folder branches of `select_next_file` and `select_prev_file`. */
    method StepFolderFiles(forward: bool) returns (path: Option<string>)
      requires Valid() && music.totalFiles > 0 && FolderMode(state.mode)
      requires SafeFolder(music, state.mode, state.folderIndex)
      requires if forward then NextReadable(music, state) else PrevReadable(music, state)
      modifies this, order
      ensures Valid() && music == old(music) && state == old(state).(fileIndex := state.fileIndex)
      ensures Stuck(music, old(state.mode), old(state.folderIndex)) ==>
        path.None? && state == old(state) && Navigation() == old(Navigation())
      ensures !Stuck(music, old(state.mode), old(state.folderIndex)) ==>
        Moved(music, old(Navigation()), Navigation(), forward) &&
        path == Some(FullPathOf(mount, FolderFiles(music, state.folderIndex)[state.fileIndex].path))
    {
      hide Loaded, IsShuffle, FullPathOf, Rem, Files;
      if music.folderCount == 0 || state.folderIndex >= music.folderCount {
        return None;
      }
      var list := FolderFiles(music, state.folderIndex);
      if state.mode == MODE_FOLDER_ORDER {
        if |list| == 0 {
          return None;
        }
        state := state.(fileIndex := StepIndex(state.fileIndex, |list|, forward));
      } else {
        StepShuffled(|list|, forward);
      }
      path := Some(FullPathOf(mount, list[state.fileIndex].path));
    }

    /**
     * `select_next_file` (`forward`) or `select_prev_file` up to the call of `play_file`:
     * the move, and the full path of the file to play. The two differ only in the step
     * and in `select_next_file` also testing `all_files` for NULL, which a loaded index
     * with files never is.
     */
    method Step(forward: bool) returns (path: Option<string>)
      requires Valid() && SafeFolder(music, state.mode, state.folderIndex)
      requires if forward then NextReadable(music, state) else PrevReadable(music, state)
      modifies this, order
      ensures Valid() && music == old(music) && state == old(state).(fileIndex := state.fileIndex)
      ensures Stuck(music, old(state.mode), old(state.folderIndex)) ==>
        path.None? && state == old(state) && Navigation() == old(Navigation())
      ensures !Stuck(music, old(state.mode), old(state.folderIndex)) ==>
        Moved(music, old(Navigation()), Navigation(), forward) &&
        path == Some(FullPathOf(mount, Playlist(music, state.mode, state.folderIndex)[state.fileIndex].path))
    {
      assert music.allFiles.None? ==> music.totalFiles == 0;
      hide Loaded, IsShuffle, FullPathOf, Rem, Moved, NextReadable, PrevReadable;
      if music.totalFiles == 0 || (forward && music.allFiles.None?) {
        return None;
      }
      if state.mode == MODE_ALL_ORDER || state.mode == MODE_ALL_SHUFFLE {
        path := StepAllFiles(forward);
      } else if FolderMode(state.mode) {
        path := StepFolderFiles(forward);
      } else {
        return None;
      }
    }

    /** `select_next_file`: the move forward, then `play_file` on the file it lands on. */
    method SelectNextFile(driver: ErrCode, open: ErrCode) returns (r: ErrCode)
      requires Valid() && SafeFolder(music, state.mode, state.folderIndex) && NextReadable(music, state)
      modifies this, order, i2s
      ensures Valid() && music == old(music)
      ensures Stuck(music, old(state.mode), old(state.folderIndex)) ==>
        r == EspFail && state == old(state) && Navigation() == old(Navigation()) && unchanged(i2s)
      ensures !Stuck(music, old(state.mode), old(state.folderIndex)) ==>
        Moved(music, old(Navigation()), Navigation(), true) &&
        Played(music, mount, caps, FullPathOf(mount, Playlist(music, state.mode, state.folderIndex)[state.fileIndex].path),
               old(state).(fileIndex := state.fileIndex), state, r)
    {
      var path := Step(true);
      if path.None? {
        return EspFail;
      }
      r := PlayFile(path.value, driver, open);
    }

    /** `select_prev_file`: the move back, then `play_file` on the file it lands on. */
    method SelectPrevFile(driver: ErrCode, open: ErrCode) returns (r: ErrCode)
      requires Valid() && SafeFolder(music, state.mode, state.folderIndex) && PrevReadable(music, state)
      modifies this, order, i2s
      ensures Valid() && music == old(music)
      ensures Stuck(music, old(state.mode), old(state.folderIndex)) ==>
        r == EspFail && state == old(state) && Navigation() == old(Navigation()) && unchanged(i2s)
      ensures !Stuck(music, old(state.mode), old(state.folderIndex)) ==>
        Moved(music, old(Navigation()), Navigation(), false) &&
        Played(music, mount, caps, FullPathOf(mount, Playlist(music, state.mode, state.folderIndex)[state.fileIndex].path),
               old(state).(fileIndex := state.fileIndex), state, r)
    {
      var path := Step(false);
      if path.None? {
        return EspFail;
      }
      r := PlayFile(path.value, driver, open);
    }

    /**
     * `select_next_folder` (`forward`) or `select_prev_folder` up to the call of
     * `play_file`: no folders fails at once; otherwise the folder index steps, the file
     * position is reset, folder shuffle builds an order for the new folder, and an empty
     * folder fails after all that.
     */
    method StepFolder(forward: bool) returns (path: Option<string>)
      requires Valid() && FolderStepReadable(music, state, forward)
      modifies this, order
      ensures Valid() && music == old(music)
      ensures music.folderCount == 0 ==> path.None? && state == old(state) && Navigation() == old(Navigation())
      ensures music.folderCount > 0 ==>
        0 <= state.folderIndex < music.folderCount &&
        FolderMoved(music, old(Navigation()), Navigation(), StepIndex(old(state.folderIndex), music.folderCount, forward)) &&
        state == old(state).(folderIndex := state.folderIndex, fileIndex := state.fileIndex) &&
        (path.None? <==> |FolderFiles(music, state.folderIndex)| == 0) &&
        (path.Some? ==> path.value == FullPathOf(mount, FolderFiles(music, state.folderIndex)[state.fileIndex].path))
    {
      assert music.folderCount >= 0;
      hide Loaded, IsShuffle, FullPathOf, Files;
      if music.folderCount == 0 {
        return None;
      }
      state := state.(folderIndex := StepIndex(state.folderIndex, music.folderCount, forward));
      state := state.(fileIndex := 0);
      if state.mode == MODE_FOLDER_SHUFFLE {
        GenerateShuffleFolder();
      }
      var list := FolderFiles(music, state.folderIndex);
      if |list| == 0 {
        return None;
      }
      if state.mode == MODE_FOLDER_SHUFFLE && order.indices != null && order.count > 0 {
        ShuffleInRange(order.indices[..], order.count);
        state := state.(fileIndex := order.indices[0]);
        path := Some(FullPathOf(mount, list[state.fileIndex].path));
      } else {
        path := Some(FullPathOf(mount, list[0].path));
      }
    }

    /** `select_next_folder`: the step to the next folder, then `play_file` on its first (or first shuffled) file. */
    method SelectNextFolder(driver: ErrCode, open: ErrCode) returns (r: ErrCode)
      requires Valid() && FolderStepReadable(music, state, true)
      modifies this, order, i2s
      ensures Valid() && music == old(music)
      ensures music.folderCount == 0 ==> r == EspFail && state == old(state) && Navigation() == old(Navigation())
      ensures music.folderCount > 0 ==>
        0 <= state.folderIndex < music.folderCount &&
        FolderMoved(music, old(Navigation()), Navigation(), NextIndex(old(state.folderIndex), music.folderCount)) &&
        var list := FolderFiles(music, state.folderIndex);
        var moved := old(state).(folderIndex := state.folderIndex, fileIndex := state.fileIndex);
        (|list| == 0 ==> r == EspFail && state == moved) &&
        (|list| > 0 ==> Played(music, mount, caps, FullPathOf(mount, list[state.fileIndex].path), moved, state, r))
    {
      var path := StepFolder(true);
      if path.None? {
        return EspFail;
      }
      r := PlayFile(path.value, driver, open);
    }

    /** `select_prev_folder`: the step to the previous folder, then `play_file` on its first (or first shuffled) file. */
    method SelectPrevFolder(driver: ErrCode, open: ErrCode) returns (r: ErrCode)
      requires Valid() && FolderStepReadable(music, state, false)
      modifies this, order, i2s
      ensures Valid() && music == old(music)
      ensures music.folderCount == 0 ==> r == EspFail && state == old(state) && Navigation() == old(Navigation())
      ensures music.folderCount > 0 ==>
        0 <= state.folderIndex < music.folderCount &&
        FolderMoved(music, old(Navigation()), Navigation(), PrevIndex(old(state.folderIndex), music.folderCount)) &&
        var list := FolderFiles(music, state.folderIndex);
        var moved := old(state).(folderIndex := state.folderIndex, fileIndex := state.fileIndex);
        (|list| == 0 ==> r == EspFail && state == moved) &&
        (|list| > 0 ==> Played(music, mount, caps, FullPathOf(mount, list[state.fileIndex].path), moved, state, r))
    {
      var path := StepFolder(false);
      if path.None? {
        return EspFail;
      }
      r := PlayFile(path.value, driver, open);
    }
  }
}
