# ESP32 music player: index parsing, navigation, buttons and status LED

This project models the core logic of an ESP32 music-player firmware. The player reads
`index.json` from an SD card and walks the files it lists in one of four playback modes.
The modes are all files or one folder, each in order or shuffled. Three buttons and a
WS2812 status LED make up the user interface.

The model covers eight C files, one Dafny module per source file, plus shared helpers.

- **Pattern scanner** (`debug_json.c`, module `PatternScan`). `find_pattern_debug`
  searches a file for a literal pattern through a 512-byte window. After a miss it
  carries the last `|pattern| - 1` bytes over. `count_objects_debug` counts the `{`
  entries of the `"allFiles":` array. The file is a byte sequence; the window is an array.
- **Text helpers** (module `JsonText`, with `Search` for `strstr`/`strchr` and
  `ArrayWalk` for the array loops). These are the helpers both parser generations share
  verbatim: key lookup, quoted-string extraction, `atoi`, locating an array's `[`,
  brace-balanced object extraction and array sizing. Each is a loop method proved equal
  to a function over `seq<char>`.
- **Current parser** (`main/json_parser.c`, module `JsonParser`). `json_parse_index`
  fills an index record in place. Also modelled: `json_free_index` and
  `json_get_full_path`.
- **Earlier parser** (`main/json_parser_old.c`, modules `OldRecord`, `OldStream`,
  `OldMinimal` and `JsonParserOld`). It adds a per-entry parser with song metadata and
  a line-accumulating streaming parser with geometric array growth. It also has a
  one-entry fallback parser, and a dispatch on the file size.
- **Player navigation** (`main/audio_player.c`, module `AudioPlayer`). The module
  statics become a `Player` class. It models next/previous file per mode with
  wrap-around, cyclic folder steps and the Fisher–Yates shuffle on an array. It also
  models mode changes, validation of a loaded state, path stripping and the I2S
  parameter mapping.
- **Buttons**. Three state machines, each a class whose methods are tied to a pure
  step function:
  - the interrupt-driven handler (`main/button_handler.c`, module `ButtonHandler`);
  - the polled host variant (`main/test_button_handler.c`, module `TestButtonHandler`);
  - the debouncing library (`components/ezbutton/ezbutton.c`, module `EzButton`).
- **Status LED** (`main/neopixel.c`, module `Neopixel`). RGB becomes a GRB word, and
  the word becomes 24 RMT pulse items, most significant bit first. The playback mode is
  shown as a colour.

Some things are parameters of the operations that use them:

- hardware readings: pin levels, timer values, driver results;
- the file system: a map from paths to contents;
- allocation success: a nondeterministic choice.

## Model

| member | source | states |
|---|---|---|
| Esp.Truncate | main/json_parser.c:229-230 | `strncpy(dst, src, cap-1)` plus the terminator keeps the longest prefix of at most `cap-1` characters, and the whole string when it fits |
| Search.IndexOfSound | debug_json.c:44 | the search result is -1 only when no occurrence lies in range; otherwise it is an occurrence in range with none before it |
| Search.IndexOfIs | main/json_parser.c:18 | an occurrence with none before it in range is what the search reports |
| Search.IndexOfNone | main/json_parser.c:18 | no occurrence in range means the search reports -1 |
| Search.Find | main/json_parser.c:40 | the scanning loop behind `strstr`/`strchr` returns the leftmost occurrence from `from` on, or -1 |
| PatternScan.ReachBounds | debug_json.c:20 | the loop reads at least `max_search` bytes, and less than one 512-byte window more |
| PatternScan.FindPatternHit | debug_json.c:44-49 | a non-negative result `p` has `p >= start`, the file holds the pattern at `p`, and no occurrence lies between `start` and `p` |
| PatternScan.FindPatternComplete | debug_json.c:20-78 | every occurrence that ends within `max_search` bytes of `start` is found: the result is at or before it, never -1 |
| PatternScan.FindPatternEmpty | debug_json.c:9-10 | an empty pattern gives -1 |
| PatternScan.MoveToFront | debug_json.c:61 | `memmove` to the front: the first `len` cells receive the bytes from `from`, the rest are kept |
| PatternScan.ReadBlock | debug_json.c:31-32 | `fread` after the seek returns `min(512, bytes left)` bytes, copies them behind the carried ones, and leaves the carried ones alone |
| PatternScan.WindowHit | debug_json.c:44-46 | a hit in a window that starts `overlap` bytes before the read position is the leftmost occurrence after `start` (`current_pos - buffer_overlap + offset`) |
| PatternScan.WindowMiss | debug_json.c:59-65 | a window without a match extends the range known to hold no occurrence, so the carry cannot hide one |
| PatternScan.SearchWindow | debug_json.c:31-44 | the window holds exactly the file bytes from `pos - overlap`, the NUL write stays inside the `512 + |pattern|` buffer, and the search result is the window's first occurrence |
| PatternScan.Carry | debug_json.c:59-65 | after a miss the front of the window holds the last `min(|pattern|-1, total)` bytes searched |
| PatternScan.HitIsResult | debug_json.c:45-49 | a hit in the current window is the leftmost occurrence the whole search promises |
| PatternScan.MissIsResult | debug_json.c:52-78 | once the bytes searched reach the budget with no occurrence, the whole search result is -1 |
| PatternScan.EndIsMiss | debug_json.c:34-37 | a zero-byte read ends the search with -1 because no occurrence remains |
| PatternScan.ShortIsMiss | debug_json.c:52-57 | a short read without a match ends the search with -1 because the file has ended |
| PatternScan.Advance | debug_json.c:59-69 | a full window without a match keeps the loop invariant with `current_pos` and `searched` grown by 512 |
| PatternScan.ScanStep | debug_json.c:24-69 | one iteration either ends with the specified result or reads a full window and keeps the invariant |
| PatternScan.FindPattern | debug_json.c:8-79 | `find_pattern_debug` returns the leftmost occurrence at or after `start` within the bytes its budget reads, or -1 (empty pattern, failing seek, none found) |
| PatternScan.ClosingProbe | debug_json.c:122-123 | the probe for `]` reports one before the next `{` exactly when a `]` lies between the cursor and that `{` |
| PatternScan.NextObjectFacts | debug_json.c:115-126 | a counted object is a `{` at or after the cursor, with no `{` and no `]` between them |
| PatternScan.ObjectsAreBraces | debug_json.c:114-129 | every counted position holds a `{` and lies at or after the cursor |
| PatternScan.ObjectsIncreasing | debug_json.c:129 | counted positions are strictly increasing |
| PatternScan.ObjectsComplete | debug_json.c:114-129 | no `]` comes before the last counted `{`, and every `{` up to it is counted |
| PatternScan.NextObjectStop | debug_json.c:115-125 | a round ends the loop only when no `{` follows within the object budget or a `]` comes before the next `{` |
| PatternScan.ObjectsStop | debug_json.c:109-134 | counting stops short of 1000 only when no `{` follows within the object budget or a `]` comes before the next `{` |
| PatternScan.CountObjectsRange | debug_json.c:81-104 | the count is -1 exactly when the file does not open, `"allFiles":` is absent, or no `[` follows within the bytes a 1000-byte budget reads (two 512-byte windows, up to 1024 bytes); otherwise it is between 0 and 1000 |
| PatternScan.CountedObjects | debug_json.c:88-137 | a non-negative count comes from an `"allFiles":` key and a later `[`, and equals the number of objects listed from just after that `[` |
| PatternScan.FindNextObject | debug_json.c:115-126 | one round of the counting loop: the next `{`, or -1 when none is left or a `]` comes first |
| PatternScan.CountFrom | debug_json.c:109-134 | the counting loop counts exactly the listed objects, at most 1000 |
| PatternScan.CountObjects | debug_json.c:81-138 | `count_objects_debug` returns the specified count for every file |
| JsonText.CStr | main/json_parser.c:224 | the text a C string function sees is the prefix before the first NUL |
| JsonText.SkipWhile | main/json_parser.c:27-29 | the skip stops at the first character that is not skipped, having passed only skipped ones |
| JsonText.Skip | main/json_parser.c:119-121 | the pointer-walking skip loop stops where `SkipWhile` says |
| JsonText.ValueAtKey | main/json_parser.c:18-29 | the value position is -1 exactly when `"key":` does not occur; otherwise it follows the leftmost `"key":` and its spaces, tabs, CRs and LFs, and stops at the first other character |
| JsonText.FindValue | main/json_parser.c:15-29 | the `sprintf`/`strstr`/skip sequence reaches the value position |
| JsonText.StringValueSpec | main/json_parser.c:14-58 | `extract_string` is NULL exactly when the key is absent, no `"` follows the whitespace, or no closing quote exists; otherwise it is the quote-free text between the two quotes |
| JsonText.ExtractString | main/json_parser.c:14-58 | `extract_string` returns the specified string value |
| JsonText.AtoiScan | main/json_parser.c:79 | `atoi` computed one digit at a time equals the specified value: leading white space, an optional sign, then decimal digits |
| JsonText.DecimalRoundTrip | main/json_parser.c:79 | reading back the decimal digits of `n` gives `n` |
| JsonText.AtoiIntText | main/json_parser.c:79 | `atoi` of a written integer followed by a non-digit gives that integer |
| JsonText.IntValueAbsent | main/json_parser.c:65-68 | `extract_int` of an absent key is 0 |
| JsonText.IntValueOf | main/json_parser.c:61-80 | `extract_int` of a key whose value is a written integer gives that integer |
| JsonText.ExtractInt | main/json_parser.c:61-80 | `extract_int` returns the specified integer value |
| JsonText.ArrayAtSpec | main/json_parser.c:157-180 | `find_array` is NULL exactly when the key is absent or the value does not start with `[`; otherwise it points at a `[` reached from the leftmost `"key":` over whitespace only |
| JsonText.FindArray | main/json_parser.c:157-180 | `find_array` returns the specified position |
| JsonText.ObjectEndBalanced | main/json_parser.c:127-137 | brace counting stops at the first point where the braces balance, or reports that they never do |
| JsonText.ObjectTextNone | main/json_parser.c:119-142 | `extract_object` is NULL exactly when the first non-blank character is not `{` or the braces never balance |
| JsonText.ObjectTextSome | main/json_parser.c:117-154 | an extracted object is the shortest prefix from the `{` that ends with `}` and has balanced braces |
| JsonText.ExtractObject | main/json_parser.c:117-154 | `extract_object` returns the specified object text |
| JsonText.GetArraySize | main/json_parser.c:83-114 | `get_array_size` returns the specified count |
| JsonText.SizeSkipsObject | main/json_parser.c:91-103 | inside an object the scan runs to its closing `}` and counts it once |
| JsonText.SizeCountsElements | main/json_parser.c:83-114 | counting the objects of an array written element by element gives the number of elements |
| JsonText.ArraySizeOfElements | main/json_parser.c:83-114 | `get_array_size` of `[` followed by n whole objects and `]` is n |
| JsonRecord.RecordStringValue | main/json_parser.c:14-58 | `extract_string` on a written JSON object gives back the first value stored under the key |
| JsonRecord.RecordKeyAbsent | main/json_parser.c:18-21 | a key no field has does not occur in the written object |
| ArrayWalk.Fill | main/json_parser.c:254-293 | the array loop keeps the slots it has already passed |
| ArrayWalk.AdvanceCursor | main/json_parser.c:286-291 | the cursor move after an object is a scan past the first `}`, or brace counting past the whole object |
| ArrayWalk.ScanRound | main/json_parser.c:256-292 | one round finds the next `{`, extracts and parses the object there, and moves the cursor |
| ArrayWalk.FillSlots | main/json_parser.c:253-293 | the loop writes the array cells in place exactly as the specified walk does |
| ArrayWalk.ParsedAt | main/json_parser.c:264-283 | the n-th parsed entry is the parse of the n-th element |
| ArrayWalk.ElementFirstClose | main/json_parser.c:287-291 | the scan to the first `}` lands just past an element without nested braces |
| ArrayWalk.FillElements | main/json_parser.c:254-293 | an array written element by element is filled with the parses of the elements, in order |
| JsonParser.IndexDefaults | main/json_parser.c:227-234 | a missing `version` gives `1.0`; a missing `allFiles` gives a NULL array with `total_files` 0 whatever `"totalFiles"` says; a missing `musicFolders` gives a NULL array with count 0 |
| JsonParser.EntryDefaults | main/json_parser.c:266-282 | a missing name gives `unknown`, a missing path gives the empty string |
| JsonParser.EntryRoundTrip | main/json_parser.c:264-283 | parsing a written file object gives back the entry |
| JsonParser.EntriesOfElements | main/json_parser.c:254-293 | a file array written from entries is read back entry by entry, with `get_array_size` equal to their number |
| JsonParser.AllFilesRoundTrip | main/json_parser.c:240-293 | an `allFiles` array written from entries parses back to exactly those entries, in order, and `total_files` becomes their number |
| JsonParser.FoldersAsWritten | main/json_parser.c:315-413 | the folder loop as written, which moves past only the first `}` after each folder, still fills exactly as many slots as `get_array_size` counted |
| JsonParser.Folders | main/json_parser.c:315-413 | the corrected folder loop, which moves past each whole folder, fills exactly as many slots as `get_array_size` counted |
| JsonParser.FoldersWalk | main/json_parser.c:300-418 | with the corrected loop, a `musicFolders` array of whole objects gives one folder per object, in order, however deeply each nests |
| JsonParser.FlatFoldersAgree | main/json_parser.c:315-413 | folders without nested braces are read the same by the loop as written and by the corrected loop: one folder per object, in order |
| JsonParser.FolderCursorAsWritten | main/json_parser.c:408-412 | on `[{"files":[{},{}]},{"name":"B"}]`, the loop as written reads the first folder's second file as folder 2; the corrected loop reads folder `B` |
| JsonParser.IndexFile.Parse | main/json_parser.c:182-425 | NULL path is INVALID_ARG; a missing or empty file is ESP_FAIL; otherwise OK or NO_MEM, and OK leaves the record equal to the parse of the file's text with the folder loop as written (past the first `}` after each folder) |
| JsonParser.IndexFile.Load | main/json_parser.c:226-418 | filling the record from the text ends OK with the record the source as written produces, folder loop included, or NO_MEM |
| JsonParser.IndexFile.LoadFiles | main/json_parser.c:236-297 | `total_files` is overwritten by the array's size or 0, and the file array is NULL exactly when `allFiles` is missing |
| JsonParser.IndexFile.LoadFolders | main/json_parser.c:299-418 | the folder count and array come from `musicFolders` as the loop as written walks it, NULL and 0 when it is missing |
| JsonParser.ParseFiles | main/json_parser.c:245-293 | a freshly allocated file array, filled as specified, or NULL |
| JsonParser.ParseFolders | main/json_parser.c:305-413 | a freshly allocated folder array holding what the loop as written reads (moving past the first `}` after each folder), or NULL when an allocation fails |
| JsonParser.ParseFolder | main/json_parser.c:326-403 | one folder object gives the specified folder, or NO_MEM when its file array cannot be allocated |
| JsonParser.FillFolders | main/json_parser.c:316-414 | the folder loop writes the folder array in place as the walk that moves past the first `}` after each folder does |
| JsonParser.FreeIndex | main/json_parser.c:427-451 | a NULL record is INVALID_ARG; otherwise both array pointers become NULL and the other fields stay |
| JsonParser.FullPath | main/json_parser.c:453-462 | NULL arguments give INVALID_ARG; otherwise the buffer holds a prefix of `mount + "/ESP32_MUSIC/" + relative` shorter than `max_len`, all of it when it fits |
| JsonParser.FullPathExample | main/test_json_parser.c:169-172 | mount `/test` and `Pop/song1.pcm` give `/test/ESP32_MUSIC/Pop/song1.pcm` |
| OldRecord.StringDefault | main/json_parser_old.c:219-221 | a missing string key gives its default, cut to the field's capacity |
| OldRecord.EntryDefaults | main/json_parser_old.c:205-266 | missing keys give `unknown`, an empty path, `Unknown Song`, `Unknown Album` and `Unknown Artist`, and 0 for all four numbers (the 44100/16/2 defaults are overwritten) |
| OldRecord.EntryStringsRoundTrip | main/json_parser_old.c:205-266 | an entry object written with the five string fields parses back to them, with the four numbers 0 |
| OldRecord.StringsRead | main/json_parser_old.c:214-265 | each of the five string fields of a written entry is read back by `extract_string` |
| OldRecord.NumbersAbsent | main/json_parser_old.c:234-237 | without the number keys, `extract_int` gives 0 for sample rate, bit depth, channels and folder index |
| OldRecord.IndexRecord.constructor | main/json_parser_old.c:587 | a fresh record is all zero: empty version, counts 0, NULL arrays |
| OldRecord.IndexRecord.Clear | main/json_parser_old.c:587 | `memset(index, 0, sizeof)` leaves the zero record |
| OldStream.LineEnd | main/json_parser_old.c:625 | `fgets` stops just after the first newline, after `room` characters, or at the end of the file |
| OldStream.Append | main/json_parser_old.c:626-635 | the accumulation buffer is cleared instead of overflowing, so it stays under 2047 characters; otherwise the line is appended |
| OldStream.Grow | main/json_parser_old.c:662-665 | `realloc` keeps the old cells and adds uninitialised ones |
| OldStream.NewMax | main/json_parser_old.c:643-645 | a larger `totalFiles` asks for more cells than there are |
| OldStream.TotalPhase | main/json_parser_old.c:638-675 | a `"totalFiles":` sets the total and may grow the array, keeping its cells |
| OldStream.SectionPhase | main/json_parser_old.c:678-688 | `"allFiles":` opens the file section; `"folders":` enters the folder section for good and closes the file section until a later `"allFiles":` |
| OldStream.StreamEntryIff | main/json_parser_old.c:730-750 | an entry is taken exactly when name, path and song are all extracted, each cut to its field |
| OldStream.Room | main/json_parser_old.c:695-724 | capacity grows by 20 when `files_found` reaches it, so the cell at `files_found` exists |
| OldStream.EntryPhase | main/json_parser_old.c:691-761 | a complete object in the file section clears the buffer, and fills and counts one cell exactly when the entry extracts; earlier cells are kept |
| OldStream.EndPhase | main/json_parser_old.c:764-771 | a `],` inside a section clears the buffer and ends the file section |
| OldStream.StreamKeeps | main/json_parser_old.c:625-772 | entries found earlier survive the rest of the file |
| OldStream.StreamCounted | main/json_parser_old.c:736-748 | after the whole file every counted cell holds an entry with name, path and song |
| OldStream.StreamFrom | main/json_parser_old.c:625-772 | over the lines the count of found entries and the array length never decrease, the count stays within the array, and the buffer stays under 2047 characters |
| OldStream.Final | main/json_parser_old.c:776-778 | the record after streaming has `total_files = files_found`, no folders, and the file array |
| OldStream.Strcat | main/json_parser_old.c:634 | `strcat` into the fixed buffer appends the line |
| OldStream.AppendLine | main/json_parser_old.c:626-635 | the guarded append on the buffer array matches `Append` |
| OldStream.Realloc | main/json_parser_old.c:662-673 | a grown array keeps the old cells, or NULL when the allocation fails |
| OldStream.TotalCheck | main/json_parser_old.c:638-675 | step 2 on the record matches `TotalPhase` |
| OldStream.FillEntry | main/json_parser_old.c:727-750 | the cell at `found` is cleared and receives the extracted entry, and the count goes up exactly when the extraction succeeds |
| OldStream.TakeEntry | main/json_parser_old.c:691-761 | step 4 on the record matches `EntryPhase` |
| OldStream.Sections | main/json_parser_old.c:678-688 | step 3 on the flags matches `SectionPhase` |
| OldStream.Complete | main/json_parser_old.c:691-692 | the firing condition: in the file section, with `"name":`, `"path":`, `"song":` and `}` in the buffer |
| OldStream.ScanLine | main/json_parser_old.c:626-771 | one loop body on the buffer, flags and record matches one step of the specified stream |
| OldStream.EndCheck | main/json_parser_old.c:764-771 | step 5 on the buffer and flag matches `EndPhase` |
| OldStream.Streaming | main/json_parser_old.c:577-783 | an unopenable file is ESP_FAIL with the record untouched; otherwise, barring NO_MEM, OK exactly when an entry was found, and the record is the one the specified stream leaves |
| OldMinimal.QuotedName | main/json_parser_old.c:856-870 | the name is the quote-free text between the two quotes after `"name":` |
| OldMinimal.MinimalEntry | main/json_parser_old.c:850-880 | a candidate line gives an entry exactly when its name has 1 to `sizeof(name)-2` characters; the path is the name and the numbers are 44100/16/2 |
| OldMinimal.MinimalIndex | main/json_parser_old.c:887-893 | the minimal record has one cell, a count of 1 or 0, and no folders |
| OldMinimal.MinimalFrom | main/json_parser_old.c:849-880 | the loop keeps at most one entry, from some candidate line |
| OldMinimal.QuotedNameOf | main/json_parser_old.c:856-870 | a line `"name":"n"` with a quote-free `n` yields `n` |
| OldMinimal.MinimalFinds | main/json_parser_old.c:849-880 | a first line naming a `.pcm` file of acceptable length is the entry the fallback keeps, with the documented defaults |
| OldMinimal.ScanName | main/json_parser_old.c:850-870 | the tests on one line match `Candidate` and `MinimalEntry` |
| OldMinimal.Minimal | main/json_parser_old.c:823-894 | an unopenable file is ESP_FAIL with the record untouched; otherwise, barring NO_MEM, OK exactly when an entry was found, with the minimal record |
| JsonParserOld.IndexShape | main/json_parser_old.c:381-572 | `total_files` and `folder_count`, which the player uses to bound every index into the arrays, equal the array lengths, or 0 with a NULL array; the version fits its array |
| JsonParserOld.IndexDefaults | main/json_parser_old.c:381-392 | a missing version gives `1.0`; missing arrays are NULL with counts 0 |
| JsonParserOld.AllFilesRoundTrip | main/json_parser_old.c:394-436 | an `allFiles` array written from entries parses back to those entries' strings, in order, with `total_files` their number |
| JsonParserOld.EntriesOfElements | main/json_parser_old.c:394-436 | a file array written from entries is read back entry by entry, with `get_array_size` equal to their number |
| JsonParserOld.FoldersWalk | main/json_parser_old.c:539-561 | brace counting past every folder, well formed or not, gives one folder per object, in order |
| JsonParserOld.ParseIndex | main/json_parser_old.c:268-574 | NULL arguments are INVALID_ARG; a missing or empty file is ESP_FAIL; files up to 10000 bytes are parsed in memory; larger ones go to the streaming parser, with the minimal parser when streaming finds nothing |
| JsonParserOld.Load | main/json_parser_old.c:381-572 | the in-memory parse ends OK with the specified record, or NO_MEM |
| JsonParserOld.LoadFiles | main/json_parser_old.c:391-436 | `total_files` is overwritten by the array's size or 0, and the array is NULL exactly when `allFiles` is missing |
| JsonParserOld.LoadFolders | main/json_parser_old.c:438-572 | the folder count and array come from `musicFolders`, NULL and 0 when it is missing |
| JsonParserOld.ParseFiles | main/json_parser_old.c:394-436 | a freshly allocated file array, filled as specified, or NULL |
| JsonParserOld.ParseFolders | main/json_parser_old.c:438-572 | a freshly allocated folder array, filled as specified, or NULL |
| JsonParserOld.ParseFolder | main/json_parser_old.c:458-538 | one folder object gives the specified folder, or NO_MEM |
| JsonParserOld.FillFolders | main/json_parser_old.c:450-562 | the folder loop writes the array in place, brace counting past every folder |
| JsonParserOld.FreeIndex | main/json_parser_old.c:785-809 | a NULL record is INVALID_ARG; otherwise both array pointers become NULL |
| AudioPlayer.Rem | main/audio_player.c:792 | C's `%` for a positive divisor: in `[0, n)` for a non-negative dividend, in `(-n, 0]` for a non-positive one, the dividend itself when it is below `n`, and 0 at `n` |
| AudioPlayer.NextIndex | main/audio_player.c:792 | `(i + 1) % n` stays in `[0, n)` for `i` in range and wraps `n - 1` to 0 |
| AudioPlayer.PrevIndex | main/audio_player.c:840 | `i == 0 ? n - 1 : i - 1` stays in range and wraps 0 to `n - 1` |
| AudioPlayer.PrevUndoesNext | main/audio_player.c:792-840 | within the range a step back undoes a step forward, and the other way round |
| AudioPlayer.ForwardShifts | main/audio_player.c:792 | k steps forward move k places, wrapping once past the end |
| AudioPlayer.ForwardCycles | main/audio_player.c:792 | n steps forward come back to the start |
| AudioPlayer.ForwardReaches | main/audio_player.c:792 | every position is reached within n steps forward |
| AudioPlayer.ShuffleOnce | main/audio_player.c:749-757 | a shuffle order names every position exactly once, and nothing else |
| AudioPlayer.ShuffleInRange | main/audio_player.c:796-799 | every value of a shuffle order is a valid file position, so `all_files[shuffle_indices[k]]` stays in bounds |
| AudioPlayer.ShuffleArray | main/audio_player.c:739-746 | Fisher–Yates with `j` in `[0, i]` leaves a permutation of the array |
| AudioPlayer.ShuffleOrder.constructor | main/audio_player.c:143-145 | no order at start-up: NULL, count 0, position 0 |
| AudioPlayer.ShuffleOrder.Free | main/audio_player.c:729-736 | only a live order is freed and resets count and position |
| AudioPlayer.ShuffleOrder.Build | main/audio_player.c:752-756 | the identity of length n, shuffled, is a fresh order at position 0 |
| AudioPlayer.PathIndex | main/audio_player.c:625-630 | the first entry whose path is the given one, or -1 when none is |
| AudioPlayer.FindPath | main/audio_player.c:625-630 | the `strcmp` loop returns `PathIndex` |
| AudioPlayer.Relative | main/audio_player.c:616-622 | stripping the mount point, one `/` and `ESP32_MUSIC/` leaves a suffix of the path |
| AudioPlayer.RelativeOfFullPath | main/audio_player.c:616-622 | stripping undoes `json_get_full_path`: it gives back the relative path, or the part that fitted in the buffer |
| AudioPlayer.DataWidth | main/audio_player.c:960-966 | 8, 16, 24 and 32 bits keep their width; anything else is 16 |
| AudioPlayer.SlotModeOf | main/audio_player.c:968 | one channel is mono, any other count stereo |
| AudioPlayer.U16 | main/audio_player.c:941 | conversion to `uint16_t` |
| AudioPlayer.U32 | main/audio_player.c:941 | conversion to `uint32_t` |
| AudioPlayer.I2sChannel.constructor | main/audio_player.c:173-178 | no channel and a zero setting at start-up |
| AudioPlayer.I2sChannel.Configure | main/audio_player.c:941-1024 | an unchanged setting is OK without effect; otherwise the channel is rebuilt with the mapped width and slot mode, and the setting is recorded only on success |
| AudioPlayer.Validated | main/audio_player.c:440-448 | a mode out of range becomes ALL_ORDER, a folder index at or past the count becomes 0, nothing else changes |
| AudioPlayer.Defaults | main/audio_player.c:458-462 | after a failed load: ALL_ORDER, positions 0, not playing, empty path |
| AudioPlayer.Locate | main/audio_player.c:685-726 | the first file with the path gives the folder index, and its position in that folder when found there; an unknown path changes nothing |
| AudioPlayer.ModeSet | main/audio_player.c:402-410 | the mode is stored; outside the folder modes, or with no current file, nothing else changes |
| AudioPlayer.ShuffleSize | main/audio_player.c:773-781 | the order length after an update is never negative: all files in ALL_SHUFFLE, 0 outside the shuffle modes |
| AudioPlayer.PrevAfterNext | main/audio_player.c:784-878 | from a position inside the list, `prev` after `next` returns to the same file, order and shuffle position |
| AudioPlayer.FolderBackAndForth | main/audio_player.c:881-938 | `next_folder` then `prev_folder` returns to the starting folder |
| AudioPlayer.NowPlaying | main/audio_player.c:657-671 | `play_file` records the path and the entry's song, album, artist and audio parameters, each cut to its field |
| AudioPlayer.Player.constructor | main/audio_player.c:130-145 | the statics at start-up: zero state, no order, no channel |
| AudioPlayer.Player.GenerateShuffleAll | main/audio_player.c:749-757 | a shuffle order of all files, or none for an empty index |
| AudioPlayer.Player.GenerateShuffleFolder | main/audio_player.c:760-770 | a shuffle order of the current folder, or none for no folder, a bad index or an empty folder |
| AudioPlayer.Player.UpdateShuffleList | main/audio_player.c:773-781 | an order for the shuffle modes, none for the others |
| AudioPlayer.Player.UpdateFolderIndexForFile | main/audio_player.c:685-726 | the state becomes `Locate` of the stripped path; the index is unchanged |
| AudioPlayer.Player.SetMode | main/audio_player.c:402-418 | a mode at or past MODE_MAX is INVALID_ARG and changes nothing; otherwise OK, the state is `ModeSet`, and the shuffle order fits the new mode |
| AudioPlayer.Player.LoadState | main/audio_player.c:432-465 | unmounted is INVALID_STATE with no change; a complete read is OK with the validated state; anything else is NOT_FOUND with the defaults |
| AudioPlayer.Player.PlayFile | main/audio_player.c:607-682 | a path not in the index fails and changes nothing; a driver or open failure is returned; success records the path and metadata |
| AudioPlayer.Player.StepShuffled | main/audio_player.c:796-799 | an order of another length is rebuilt; the shuffle position steps and the file is the one the order names there |
| AudioPlayer.Player.StepAllFiles | main/audio_player.c:790-800 | the all-files move of next/prev, with the full path of the file it lands on |
| AudioPlayer.Player.StepFolderFiles | main/audio_player.c:801-823 | the folder move of next/prev; no folder, a bad index, or an empty folder in order mode fails with no change |
| AudioPlayer.Player.Step | main/audio_player.c:784-878 | an empty index or unknown mode fails with no change; otherwise the move of the mode, with the path of the file to play |
| AudioPlayer.Player.SelectNextFile | main/audio_player.c:784-830 | ESP_FAIL with no change when stuck; otherwise the forward move, then `play_file` on the file it lands on |
| AudioPlayer.Player.SelectPrevFile | main/audio_player.c:833-878 | ESP_FAIL with no change when stuck; otherwise the backward move, then `play_file` |
| AudioPlayer.Player.StepFolder | main/audio_player.c:881-908 | no folders fails at once; otherwise the folder index steps cyclically, the file position resets, and folder shuffle rebuilds its order |
| AudioPlayer.Player.SelectNextFolder | main/audio_player.c:881-908 | the step to the next folder, then `play_file` on its first (or first shuffled) file; an empty folder fails |
| AudioPlayer.Player.SelectPrevFolder | main/audio_player.c:911-938 | the step to the previous folder, then `play_file` on its first (or first shuffled) file |
| ButtonHandler.Int32 | main/button_handler.c:124 | the `int64_t` duration converted to `int`: the value modulo 2^32, read as signed, unchanged when it fits |
| ButtonHandler.Start | main/button_handler.c:35-40 | all buttons start idle with no long press, and `last_back_press_time` is 0 |
| ButtonHandler.AfterEdge | main/button_handler.c:46-62 | level 0 presses: PRESSED, press time stamped, long-press flag cleared; level 1 stamps the release and makes PRESSED or LONGPRESS into RELEASED |
| ButtonHandler.LongPressReported | main/button_handler.c:104-120 | a due long press is reported at once as NEXT_FOLDER (forward, first) or PREV_FOLDER (back), entering LONGPRESS |
| ButtonHandler.ReleasedSettles | main/button_handler.c:133-167 | with no long press due, every released button is returned to IDLE |
| ButtonHandler.ForwardNext | main/button_handler.c:122-134 | NEXT comes exactly from a forward release lasting 50 to 999 ms, with no long press due and no back or menu press counted |
| ButtonHandler.BackPrevOrRestart | main/button_handler.c:136-155 | a counted back release gives PREV within 5000 ms of the last one, else RESTART_TRACK, and stamps `last_back_press_time` |
| ButtonHandler.MenuChangeMode | main/button_handler.c:157-168 | CHANGE_MODE comes exactly from a menu release of at least 50 ms, with no upper bound, and overrides the others |
| ButtonHandler.LongPressNoShort | main/button_handler.c:104-134 | a reported long press gives no short press on its release |
| ButtonHandler.DurationWraps | main/button_handler.c:124-127 | a press held 2^32 + 100 ms wraps in the `int` duration and counts as a short press |
| ButtonHandler.Actions | main/button_handler.c:100-171 | a trace of polls gives at most one action per event |
| ButtonHandler.StaysReported | main/button_handler.c:105-110 | without a new press, a reported long press stays reported and is not reported again |
| ButtonHandler.ReportMarks | main/button_handler.c:107-110 | a long press is reported only together with its flag |
| ButtonHandler.LongPressOnce | main/button_handler.c:104-120 | over any trace of polls and edges with no new press of the button, its long press is reported at most once, and not at all when it was already reported |
| ButtonHandler.Button.constructor | main/button_handler.c:35-37 | `{pin, IDLE, 0, 0, false, NONE}` |
| ButtonHandler.Button.Report | main/button_handler.c:107-109 | the long-press branch sets the flag, LONGPRESS and the last action |
| ButtonHandler.Button.SettleShort | main/button_handler.c:123-134 | a released button goes idle, and counts exactly when its press lasted 50 to 999 ms |
| ButtonHandler.Button.SettleMenu | main/button_handler.c:158-168 | a released menu button goes idle, and counts exactly when its press lasted at least 50 ms |
| ButtonHandler.Button.Edge | main/button_handler.c:46-62 | the interrupt handler with the timer in microseconds is `AfterEdge` at the millisecond |
| ButtonHandler.Handler.constructor | main/button_handler.c:35-40 | three distinct buttons on pins 33, 27 and 22, in the start state |
| ButtonHandler.Handler.GetAction | main/button_handler.c:100-171 | the poll leaves the buttons and returns the action that `Poll` specifies for the millisecond |
| TestButtonHandler.Sub | main/test_button_handler.c:62 | `unsigned long` subtraction, modulo 2^64 |
| TestButtonHandler.Cleared | main/test_button_handler.c:39-42 | the zeroed statics: every key released, and `last_back_press_time` 0 |
| TestButtonHandler.Press | main/test_button_handler.c:57-60 | a press edge records the time and clears the long-press flag; anything else changes nothing |
| TestButtonHandler.ResetClears | main/test_button_handler.c:50-55 | with `reset_states` the call acts on cleared statics, whatever they held |
| TestButtonHandler.PressRecordsTime | main/test_button_handler.c:56-108 | a call with no release edge returns NONE, records every level, and stamps new presses |
| TestButtonHandler.ForwardRelease | main/test_button_handler.c:61-71 | a forward release under 1000 ms gives NEXT; 1000 ms or more gives NEXT_FOLDER in a folder mode and falls through otherwise |
| TestButtonHandler.ForwardFirst | main/test_button_handler.c:57-70 | a forward verdict returns at once: back and menu states are not updated |
| TestButtonHandler.BackRelease | main/test_button_handler.c:78-94 | a long back release in a folder mode gives PREV_FOLDER; a short one gives PREV within 2000 ms, else RESTART_TRACK, and stamps the time |
| TestButtonHandler.MenuRelease | main/test_button_handler.c:102-105 | a menu release gives CHANGE_MODE, however long it lasted |
| TestButtonHandler.ForwardScenarios | main/test_button_handler.c:112-128 | a 100 ms press gives NEXT; a 1200 ms press in folder order gives NEXT_FOLDER |
| TestButtonHandler.BackScenario | main/test_button_handler.c:130-144 | two quick back presses give PREV twice; a press released 2800 ms after the last counted back press gives RESTART_TRACK |
| TestButtonHandler.MenuAndFolderScenarios | main/test_button_handler.c:146-158 | a menu press gives CHANGE_MODE; a 1500 ms back press in folder shuffle gives PREV_FOLDER |
| TestButtonHandler.Statics.constructor | main/test_button_handler.c:39-42 | the statics start cleared |
| TestButtonHandler.Statics.GetAction | main/test_button_handler.c:45-109 | the call updates the statics and returns the action as `Respond` specifies |
| EzButton.Sub | components/ezbutton/ezbutton.c:110 | `unsigned long` subtraction, modulo 2^32 |
| EzButton.Inc | components/ezbutton/ezbutton.c:159 | `unsigned long` increment, modulo 2^32 |
| EzButton.Created | components/ezbutton/ezbutton.c:15-53 | pull-up gives pressed 0 / unpressed 1, anything else 1 / 0; debounce 50, long press 1000, count 0, FALLING; the three states equal the pin level |
| EzButton.LoopKeepsValid | components/ezbutton/ezbutton.c:135-177 | the loop keeps the pressed and unpressed levels |
| EzButton.FlickerRestartsTimer | components/ezbutton/ezbutton.c:142-148 | a raw level change restarts the debounce timer and is remembered |
| EzButton.SteadyAfterDebounce | components/ezbutton/ezbutton.c:150-156 | the steady state changes exactly when the level differs and has held for the debounce time; the old one becomes the previous |
| EzButton.CountByMode | components/ezbutton/ezbutton.c:157-168 | the count goes up by one exactly on a steady change: any in BOTH, to pressed in FALLING, to unpressed in RISING |
| EzButton.PressStamped | components/ezbutton/ezbutton.c:170-174 | a steady change to pressed stamps the press start and clears the long-press flag; nothing else touches them |
| EzButton.PressedNotReleased | components/ezbutton/ezbutton.c:85-101 | a button is never both pressed and released |
| EzButton.LongPressOncePerPress | components/ezbutton/ezbutton.c:103-116 | over any run, long-press answers are at most the number of steady presses, plus one for a press whose long press is not yet reported |
| EzButton.Button.constructor | components/ezbutton/ezbutton.c:15-53 | the field initialisation of `ezButton_create` |
| EzButton.Create | components/ezbutton/ezbutton.c:8-55 | NULL when allocation or `gpio_config` fails; otherwise a fresh button in the created state |
| EzButton.SetDebounceTime | components/ezbutton/ezbutton.c:63-67 | sets the debounce time; nothing for NULL |
| EzButton.SetLongPressTime | components/ezbutton/ezbutton.c:69-73 | sets the long-press time; nothing for NULL |
| EzButton.SetCountMode | components/ezbutton/ezbutton.c:118-122 | stores any mode; nothing for NULL |
| EzButton.ResetCount | components/ezbutton/ezbutton.c:129-133 | the count becomes 0; nothing for NULL |
| EzButton.GetState | components/ezbutton/ezbutton.c:75-78 | the last steady level, or -1 for NULL |
| EzButton.GetStateRaw | components/ezbutton/ezbutton.c:80-83 | the pin level, or -1 for NULL |
| EzButton.IsPressed | components/ezbutton/ezbutton.c:85-92 | true exactly on an unpressed-to-pressed steady change; false for NULL |
| EzButton.IsReleased | components/ezbutton/ezbutton.c:94-101 | true exactly on a pressed-to-unpressed steady change; false for NULL |
| EzButton.GetCount | components/ezbutton/ezbutton.c:124-127 | the count, or 0 for NULL |
| EzButton.IsLongPressed | components/ezbutton/ezbutton.c:103-116 | false for NULL; otherwise the answer and new state are `LongStep`: true once when pressed longer than the long-press time |
| EzButton.Loop | components/ezbutton/ezbutton.c:135-177 | nothing for NULL; otherwise the new state is `LoopStep` of the old one |
| Neopixel.Word | main/neopixel.c:42 | the GRB word: green in bits 23..16, red in 15..8, blue in 7..0 |
| Neopixel.ItemFor | main/neopixel.c:45-55 | high then low, 13 ticks in all, a 9-tick high pulse exactly for a 1 |
| Neopixel.Items | main/neopixel.c:44-56 | 24 items, item i encoding bit 23 - i |
| Neopixel.BitsAt | main/neopixel.c:45 | position i of the most-significant-first bits is bit n - 1 - i |
| Neopixel.ValueOfBits | main/neopixel.c:42-45 | the bits of a number below 2^n spell it |
| Neopixel.DecodeItems | main/neopixel.c:42-55 | reading a 9-tick high pulse as 1 recovers the colour from its frame |
| Neopixel.ItemsInjective | main/neopixel.c:42-55 | two colours give the same frame exactly when they are equal |
| Neopixel.FrameLength | main/neopixel.c:27-30 | every item lasts 13 ticks whatever the colour |
| Neopixel.OffItems | main/neopixel.c:109-112 | black is 24 zero-bit items: 4 ticks high, 9 low |
| Neopixel.SetPixel | main/neopixel.c:41-59 | the first 24 cells become the frame of the colour; the rest are kept |
| Neopixel.SetColor | main/neopixel.c:95-107 | the frame of the colour is sent, and the driver's answer returned |
| Neopixel.Off | main/neopixel.c:109-112 | the frame of black is sent |
| Neopixel.Blink | main/neopixel.c:114-123 | the colour, then black only when the colour was sent |
| Neopixel.ModeColor | main/neopixel.c:33-38 | modes 0-3 have red, green, blue and yellow; others have none |
| Neopixel.ModeColorsDistinct | main/neopixel.c:33-38 | the four modes give four different frames |
| Neopixel.IndicateMode | main/neopixel.c:125-134 | a mode at or past MODE_MAX is INVALID_ARG with nothing sent; otherwise a blink of the mode's colour |

## Left out

- Logging, `printf`, FreeRTOS tasks and queues, the TEST_MODE mocks, `audio_player_init`, the queue-sending wrappers, `player_task` and `main`: task wiring and output, not logic.
- ISR-versus-task concurrency in `main/button_handler.c`: the interrupt handler and the poll are separate atomic methods.
- `button_handler_init`, `neopixel_init`, `gpio_config`, `rmt_config`, `rmt_write_items`, the I2S driver calls and `vTaskDelay`: driver calls. Their results are parameters (`config`, `write`, `writeOff`, `driver`) and their effects on hardware are not modelled.
- `gpio_get_level`, `esp_timer_get_time` and `xTaskGetTickCount`: method parameters (`level`, `micros`, `now`).
- The SD card (`main/sd_card.c`), `fopen`/`fread`/`fgets` and `main/pcm_file.c` are not part of this model: a file is its content (`Option<seq<char>>` or a map from paths to contents), and opening a PCM file is a parameter (`open`).
- `audio_player_save_state`, the save calls in `play_file` and `set_mode`, and the LED call in `set_mode`: SD and LED I/O with no effect on the player's state.
- `audio_player_get_state`: a plain copy of the state.
- `ezButton_delete`: a `free` with no observable effect in the model.
- `ezButton_wasLongPressed`: declared in `components/ezbutton/ezbutton.h:119` with no definition.
- `rand` and `srand`: the swap index of `shuffle_array` is any `j` in `[0, i]`.
- NUL bytes inside documents: a document is the text before its first NUL, as `strstr` sees it (`JsonText.CStr`); `PatternScan.FindPattern` and `PatternScan.CountObjects` require a file without NUL bytes.
- Allocation: every `malloc`/`realloc` of the parsers may fail (a nondeterministic choice), except the copies made by `extract_string` and `extract_object`, whose failure the parse loops cannot tell from an absent value.
- AudioPlayer.ShuffleOrder.Build: always allocates; `main/audio_player.c:753` and `:766` do not check the `malloc`, so on failure the C code writes through NULL, which the model excludes.
- PatternScan.FindPattern: the failure of its own `malloc` (which returns -1) is not modelled.
- Platform diagnostics of `main/json_parser_old.c` (directory listing on open failure, heap checks before each allocation): treated as the allocation failures above.
- The float `RMT_TICK_10_NS` in `main/neopixel.c`: unused.
- The position-indexed lookup API that `main/test_json_parser.c` and `test_large_json.c` call has no implementation in the source and is not modelled.
- `parse_file_entry` writes its entry through a pointer; the model computes the entry as a value (`OldRecord.EntryOf`), and `ArrayWalk.FillSlots` stores it in the array cell.
- The `memset` of `parse_file_entry` and of the streaming entry is modelled by the zero entry; the one-cell folder array the streaming parser allocates is modelled as `Blank(1)` and never written.
- JsonParser.FreeIndex and JsonParserOld.FreeIndex: the per-folder file pointers set to NULL before the folder array itself is freed are not modelled, because nothing can read them afterwards.
- JsonParser.IndexFile.Parse and JsonParserOld.ParseIndex: on NO_MEM the record is left partly filled, and the model does not state what it then holds.
- Integer widths: the C `int` positions, counts and indices of the parsers and the player are unbounded integers; `atoi` on `sample_rate`, `bit_depth`, `channels` and `folder_index` (`JsonText.AtoiScan`) is unbounded, where the C `atoi` overflows on more digits than an `int` holds; `int64_t` times in `main/button_handler.c` do not overflow; the `int` press duration wraps (`ButtonHandler.Int32`); `unsigned long` is 64 bits in the host test and 32 bits on the ESP32 (`TestButtonHandler.Sub`, `EzButton.Sub`, `EzButton.Inc`).
- AudioPlayer.Player.SelectNextFile, AudioPlayer.Player.SelectPrevFile, AudioPlayer.Player.Step: they require the reads of the C code to stay in bounds. This means a non-empty current folder in folder shuffle, where the C code computes `% shuffle_count` with a count of 0, and a file index inside the list where the C code indexes with it unchecked. They also require the index to be loaded (`AudioPlayer.Loaded`: counts within arrays, and every counted file's folder index non-negative, which the parsers do not guarantee since `extract_int` reads a negative `folder_index` as is), because `audio_player_load_state` does not validate the file index.
- AudioPlayer.Player.SelectNextFolder, AudioPlayer.Player.SelectPrevFolder: they require a folder index from which the cyclic step stays inside the folder array, which the C code does not check.
- AudioPlayer.Player.SetMode: entering folder shuffle requires the located folder index to be non-negative, because `generate_shuffle_folder` indexes the folder array with it unchecked.
- The player walks the index layout with song metadata (`OldRecord.Index`), the one whose fields `play_file` reads; `main/audio_player.h` lacks the metadata fields of `player_state_t` that `main/audio_player.c` writes, and the model has the fields the `.c` file uses.

## Findings

| source | as written | input that shows it | evidently intended | confidence | as-written member | corrected member |
|---|---|---|---|---|---|---|
| main/json_parser.c:408-412 | after each folder object the cursor moves only past the first `}`, which in a folder with a `files` array closes that array's first file | `"musicFolders":[{"files":[{},{}]},{"name":"B"}]` is read as folders `unknown` and a second `unknown` (the first folder's second file); folder `B` is never read | move past the whole folder object by brace counting, as the earlier parser does at `main/json_parser_old.c:539-561` | not executed | JsonParser.FolderCursorAsWritten | JsonParser.FoldersWalk |
