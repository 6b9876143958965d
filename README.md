# RoExtract core, modelled in Dafny

RoExtract finds and extracts the assets the Roblox client keeps in its cache
directory. The client strips file names and extensions, so RoExtract sniffs
each cached file for a known header. There are four categories:

- sounds: `OggS`, or `ID3` together with the `binary/` MIME marker
- images: `PNG`, `WEBP`
- ktx-files: `KTX`
- rbxm-files: `<roblox!`

It lists the files of a category and cuts each blob at the corrected header
position. It can extract a single file, a whole directory or the entire
cache in three stages, swap or copy two cached assets, and map command-line
flags to one of these actions.

These Dafny modules model that core:

| module | file | models |
|---|---|---|
| `Seqs` | seqs.dfy | sub-sequence search, replace-all, ASCII lowercase, ASCII-to-byte conversion |
| `Registry` | registry.dfy | the three fixed tables: headers per category, extension per header, offset per header |
| `Matcher` | matcher.dfy | `bytes_search`, `bytes_contains`, `find_header` |
| `Paths` | paths.dfy | paths as values, `resolve_path`, `get_mode_cache_directory`, the candidate order of `detect_directory` |
| `FileSystem` | filesystem.dfy | the disk as a value: file contents, unreadable files, read-only files |
| `State` | state.dfy | the process-wide mutex globals as one class `AppState`, its updaters, `get_request_repaint`, `filter_file_list` |
| `Extractor` | extractor.dfy | `extract_bytes`, `extract_file`, `extract_file_to_bytes` |
| `Scanner` | scanner.dfy | `refresh` and `delete_all_directory_contents` |
| `Batch` | batch.dfy | `extract_dir` and the job loop it shares with stage 3 of `extract_all` |
| `Stages` | stages.dfy | `extract_all`: the header table, stage 1 (music), stage 2 (classification), stage 3 (extraction) |
| `Swap` | swap.dfy | `swap_assets`, `copy_assets` |
| `Cli` | cli.dfy | `get_tab` and the decision table of `main` and `extract` |

## How the model is built

- Every state-changing operation is a method on, or taking, `State.AppState`. It ensures
  `Snap() == Effect(old(Snap()), inputs)`, where `Snap()` views all fields as a `Snapshot`
  value and `Effect` is a pure function. Lemmas about `Effect` state what the source promises.
- Each loop (the scan, the deletion, the extraction jobs, the stages) is a `while` loop. Its
  invariant ties the state after `i` steps to a fold of the effect over the first `i` entries.
- The filesystem is an input value (`FileSystem.Disk`). An operation that writes returns the
  new disk.
- A directory listing is an input `Option<seq<Entry>>`, where `None` means the directory
  could not be read.
- An entry is `Unreadable` (the iterator yielded an error), or holds an optional name, optional
  contents and an optional modification time.
- A worker thread that panics is an explicit outcome: `TaskOutcome.Panicked` or
  `ExtractOutcome.Panic`. Whatever flag the thread held stays set.
- Status messages are message identifiers (`Status.Msg`). Stage messages of `extract_all`
  are `Status.Stage(n, inner)`.
- Progress is an exact ratio `Ratio(done, total)` rather than a 32-bit float.
- The key order of the `HEADERS` hash map is a parameter `order` with `IsKeyOrder(order)`.
  `extract_all` and `get_categories` both iterate in that order.
- The current user, the configured cache directory, the asset-alias resolver and the
  `refresh_before_extract` setting are parameters.

`index -= offset` (src/logic.rs:172) underflows and panics when the header is found before
its offset. `Extractor.ExtractBytes` returns `Underflow`, and `Extractor.UnderflowExample`
shows a three-byte `PNG` buffer that triggers it.

## Model

| member | source | states |
|---|---|---|
| Registry.HeaderTable | src/logic.rs:32-51 | every category has exactly two ASCII headers; none is `INVALID`; the first is never the empty placeholder |
| Registry.CategoryHeaders | src/logic.rs:32-51 | the same facts for one given category |
| Registry.MusicIsNotACategory | src/logic.rs:32-51 | neither `music` nor `Music` is a key of the header table |
| Registry.ExtensionsCoverHeaders | src/logic.rs:32-63 | every non-empty header has an extension; the empty placeholder and `INVALID` have none |
| Matcher.Id3IsTheHeader | src/logic.rs:128-131 | the `ID3` rule compares against the bytes of the text `ID3` |
| Matcher.BytesSearch | src/logic.rs:116-123 | the result is present iff the needle is non-empty and occurs; when present it is the least index where the needle occurs |
| Matcher.SearchFinds | src/logic.rs:116-123 | a needle occurring at `i` and at no earlier index is found at `i` |
| Matcher.SearchTooLong | src/logic.rs:116-123 | a needle longer than the haystack is never found |
| Matcher.BytesContains | src/logic.rs:125-139 | true iff the needle is non-empty, occurs, and (when it is `ID3`) `binary/` occurs too; for any other needle it agrees with `BytesSearch` |
| Matcher.EmptyHeaderNeverMatches | src/logic.rs:125-139 | the empty placeholder header matches no buffer |
| Matcher.FirstMatch | src/logic.rs:141-159 | the index returned is the first header in table order that matches; none is returned iff no header matches |
| Matcher.FirstHeader | src/logic.rs:141-159 | `INVALID` iff no header matches; otherwise the first matching header in table order; never the empty string |
| Matcher.FindHeader | src/logic.rs:141-159 | `INVALID` for a mode that is not a category; otherwise `INVALID` iff none of its headers matches, else the first match in table order; never the empty string |
| Matcher.Id3NeedsBinaryMarker | src/logic.rs:125-159 | without an Ogg page, a sound sniffs as `ID3` iff both `ID3` and `binary/` occur |
| Extractor.ExtractBytes | src/logic.rs:161-180 | the result is always a suffix of the input; it is the unchanged input when the header is empty or absent; it underflows iff the header first occurs before its offset; otherwise the header sits at its offset in the result and nowhere earlier in the input |
| Extractor.CutAtHeader | src/logic.rs:161-180 | a header without an offset cuts exactly at its first occurrence |
| Extractor.ExtractIdempotent | src/logic.rs:161-180 | extracting an extracted payload again gives it back |
| Extractor.UnderflowExample | src/logic.rs:172 | a three-byte buffer that is exactly `PNG` makes the offset subtraction underflow |
| Extractor.PayloadOfNonCategory | src/logic.rs:141-180 | for a mode that is not a category the payload is the whole file |
| Extractor.ExtensionFor | src/logic.rs:566-573 | the header's extension when it has one, else `.ogg`; `INVALID`, returned when no header matches, gets `.ogg` |
| Extractor.ExtractEffect | src/logic.rs:549-610 | a source whose metadata cannot be read returns the empty path, changes nothing and reports idling; an unreadable source does the same but reports failed-opening-file; the call panics iff the source is readable and its payload underflows, and then the disk is unchanged |
| Extractor.ExtractWritesPayload | src/logic.rs:549-610 | a readable source writes its payload to the destination, with the chosen extension when requested, and returns that path |
| Extractor.ExtractNonCategory | src/logic.rs:549-610 | for a non-category mode the whole file is copied to `dest.ogg` |
| Extractor.ExtractToBytes | src/logic.rs:612-634 | an unreadable source gives the bytes `None` and a failed-opening-file status; a readable one sets no status |
| Extractor.ToBytesAgreesWithFile | src/logic.rs:549-634 | the bytes returned equal what `extract_file` writes for the same source and mode |
| Paths.ResolvePlainPath | src/logic.rs:239-247 | a path with none of the three tokens resolves to itself |
| Paths.ResolveRemovesTilde | src/logic.rs:239-247 | for a user name without `~`, no `~` is left after resolving |
| Paths.ModeCacheDirectory | src/logic.rs:987-995 | the result is a child of the cache directory: `sounds` iff the mode is `music`, otherwise `http` |
| Paths.FirstDirectory | src/logic.rs:260-266 | the first candidate, from a position on, whose resolved path is a directory; none iff no later candidate is one |
| Paths.FirstDirectoryAmong | src/logic.rs:249-267 | the search over all candidates finds nothing iff no candidate is a directory, and otherwise one of them |
| Paths.DetectDirectory | src/logic.rs:249-267 | a configured directory that resolves to a directory wins; otherwise the result is the first candidate, in the order configured then defaults, that resolves to a directory; none (the dialog-and-panic path) iff no candidate does |
| Paths.DefaultsInOrder | src/logic.rs:260-267 | when no configured directory is given, or it is not a directory, the Windows default wins whenever it exists |
| State.FilteredMembers | src/logic.rs:957-973 | an entry is in the filtered list iff it is in the file list and its name or its alias contains the lowercased query |
| State.FilteredSublist | src/logic.rs:957-973 | the filtered list is an order-preserving sublist of the file list |
| State.EmptyQueryKeepsAll | src/logic.rs:957-973 | an empty query keeps every entry, in order |
| State.UnaliasedFilterIgnoresCase | src/logic.rs:957-973 | for a name without an alias, the entry is kept iff its lowercased name contains the lowercased query |
| State.AppState.constructor | src/logic.rs:17-29 | the initial globals: idling, progress full, lists empty, no flag set |
| State.AppState.UpdateStatus | src/logic.rs:87-92 | sets the status and requests a repaint; nothing else changes |
| State.AppState.UpdateProgress | src/logic.rs:94-99 | sets the progress and requests a repaint; nothing else changes |
| State.AppState.UpdateFileList | src/logic.rs:101-109 | appends one entry to the file list; nothing else changes |
| State.AppState.ClearFileList | src/logic.rs:111-114 | empties the file list; nothing else changes |
| State.AppState.GetRequestRepaint | src/logic.rs:1014-1019 | returns the old repaint request and resets it |
| State.AppState.SetTaskRunning | src/logic.rs:336-409 | takes or releases the `TASK_RUNNING` gate (as delete, `extract_dir` and `extract_all` do); nothing else changes |
| State.AppState.SetListTaskRunning | src/logic.rs:443-539 | takes or releases the scan gate; nothing else changes |
| State.AppState.RequestStop | src/logic.rs:437-440 | raises the stop flag of a running scan; nothing else changes |
| State.AppState.FilterFileList | src/logic.rs:957-973 | the filtered list becomes the filtered file list; nothing else changes |
| State.RepaintReportedOnce | src/logic.rs:1014-1019 | two reads in a row: the first returns the pending request, the second returns false |
| Scanner.Prefix | src/logic.rs:507-509 | the first `min(2048, len)` bytes of the file |
| Scanner.InfoOf | src/logic.rs:182-208 | the record of a readable entry is a real asset carrying its name |
| Scanner.ScanFoldShape | src/logic.rs:472-535 | after scanning entries the file list gains exactly their pushes; progress is `count/total`; the status is the last entry's; the flags are untouched |
| Scanner.ScanFoldList | src/logic.rs:472-535 | after scanning entries the file list is the old list followed by their pushes |
| Scanner.ScanFoldFrame | src/logic.rs:472-535 | scanning changes only status, progress, the file list and the repaint request |
| Scanner.ScanPushesPrefix | src/logic.rs:472-481 | the pushes of a prefix of the entries are a prefix of the pushes of all of them |
| Scanner.CopiesStep | src/logic.rs:512-520 | one more header flag adds one copy of the record iff it is set |
| Scanner.ScanEntries | src/logic.rs:472-535 | the new state is the scan fold over the entries before the stop, with the stop flag raised iff the scan was stopped early |
| Scanner.CopiesOfInfo | src/logic.rs:512-520 | the pushes for one file are copies of its record, at most one per header, and none iff no header flag is set |
| Scanner.HeaderPushesSnoc | src/logic.rs:512-520 | one more header adds one push exactly when it is announced |
| Scanner.HeaderPushesCount | src/logic.rs:512-520 | the number of pushes is the number of announced headers |
| Scanner.HeaderPushesCopies | src/logic.rs:512-520 | a file is pushed once per matching non-empty header, with no early break: the number of pushes is the number of announced headers, every push is the file's record, and there are none iff no header matches |
| Scanner.ListedIffHeaderFound | src/logic.rs:512-520 | a readable file is listed iff `find_header` on its prefix would not return `INVALID` |
| Scanner.SoundListedTwice | src/logic.rs:512-520 | a sound whose prefix holds both `OggS` and `ID3` (with `binary/`) is listed twice |
| Scanner.AnnouncedTwice | src/logic.rs:512-520 | an entry announcing both headers of a two-header category is pushed twice |
| Scanner.CopiesOfTwo | src/logic.rs:512-520 | two set flags give two copies of the record |
| Scanner.ScanPushesReal | src/logic.rs:512-520 | every entry pushed by the scan is a real asset |
| Scanner.ScanPushesAppend | src/logic.rs:472-535 | scanning a concatenation pushes the two scans' entries in order |
| Scanner.RefreshFileList | src/logic.rs:443-541 | after a scan of a category the file list is the placeholder alone for an empty directory, otherwise the pushes of the entries scanned before the stop |
| Scanner.RefreshCompleted | src/logic.rs:443-541 | the scan completes, releases the list gate, reports idling and sets progress; the placeholder is pushed iff there are no entries, and then it is alone |
| Scanner.PreemptedScanIsPrefix | src/logic.rs:472-481 | a scan stopped early keeps exactly the pushes of the entries before the stop, a prefix of the full scan's list |
| Scanner.RefreshUnknownMode | src/logic.rs:421-425 | refreshing `music` changes nothing and starts nothing |
| Scanner.UnreadableDirectoryBlocksLaterScans | src/logic.rs:443-460 | an unreadable directory leaves the list gate held, so every later scan only raises the stop flag |
| Scanner.PushMatches | src/logic.rs:512-520 | appends exactly the file's pushes to the file list |
| Scanner.Refresh | src/logic.rs:415-547 | the new state and outcome are those of `RefreshEffect` |
| Scanner.DeleteFoldShape | src/logic.rs:356-401 | the deletion loop changes only status, progress and the repaint request; progress is `count/total` |
| Scanner.DeleteCompleted | src/logic.rs:326-413 | with a listing, deletion completes, leaves the no-files placeholder as the only file-list entry, releases the `TASK_RUNNING` gate and reports idling |
| Scanner.DeleteRefusesRoot | src/logic.rs:328-329 | deleting `PathBuf::new()` (the empty path, or a path built from the empty string) or `/` panics before any change |
| Scanner.RunRemovals | src/logic.rs:356-401 | the new state is the deletion fold over the removal results |
| Scanner.DeleteAllDirectoryContents | src/logic.rs:326-413 | the new state and outcome are those of `DeleteEffect` |
| Batch.ExtractFile | src/logic.rs:549-610 | the returned path, the new disk and the status update are those of `ExtractEffect` |
| Batch.PanicIsFinal | src/logic.rs:666-693 | once a job panics, the remaining jobs do nothing |
| Batch.JobStepShape | src/logic.rs:666-693 | one job changes only status, progress and the repaint request |
| Batch.JobsFoldShape | src/logic.rs:666-693 | the job loop changes only status, progress and the repaint request |
| Batch.JobsFoldProgress | src/logic.rs:666-693 | without a panic the progress is that of the last job |
| Batch.ExtractFrame | src/logic.rs:549-610 | an extraction changes no file other than its own destination |
| Batch.JobsFoldFrame | src/logic.rs:666-693 | a run of jobs changes no file that none of them targets |
| Batch.RunJobs | src/logic.rs:666-693 | the new state, disk and panic flag are those of the job fold |
| Batch.DirJobs | src/logic.rs:666-686 | one job per listed file, in order |
| Batch.RefreshFirst | src/logic.rs:656-658 | scans first iff `refresh_before_extract` is set, with the effect of `RefreshEffect` |
| Batch.ExtractListed | src/logic.rs:666-699 | the new state, disk and outcome are those of `ListedEffect`: every listed file extracted, then the gate released unless a job panicked |
| Batch.DirThread | src/logic.rs:649-699 | the new state, disk and outcome are those of `DirThreadEffect`: the optional refresh, then the extraction of the listed files |
| Batch.ExtractDir | src/logic.rs:637-706 | the new state, disk and outcome are those of `ExtractDirEffect` |
| Batch.ExtractDirBusy | src/logic.rs:643-648 | with the `TASK_RUNNING` gate held, `extract_dir` changes nothing |
| Batch.RefreshedFirstList | src/logic.rs:655-658 | the optional refresh is skipped, or, for a category, is blocked by a running scan (raising its stop flag), or replaces the file list with the directory's pushes, or with nothing when the directory is unreadable; the `TASK_RUNNING` gate and the filtered list are kept |
| Batch.ExtractDirEnds | src/logic.rs:637-706 | from a free gate: a refresh blocked by a running scan leaves the gate held and the disk unchanged; otherwise the list the optional refresh left (the old list without a refresh) is kept and the call either panics, leaving the `TASK_RUNNING` gate held, or completes, releasing it and reporting all-extracted, with a full bar when that list is non-empty |
| Batch.ListedEnds | src/logic.rs:666-699 | the extraction of the listed files keeps both lists and the scan gate; it panics with the gate as it was, or completes, releasing it and reporting all-extracted with a full bar |
| Batch.ListedKeepsSources | src/logic.rs:666-693 | when the destination differs from the source directory, extracting the listed files changes no source file |
| Batch.ExtractDirKeepsSources | src/logic.rs:637-706 | when the destination differs from the source directory, no listed source file changes |
| Stages.BuildAllHeaders | src/logic.rs:724-733 | the loops build exactly `AllHeaders(order)` |
| Stages.TaggedMembers | src/logic.rs:724-733 | a pair tagged with a key is in the list iff its header is one of that key's |
| Stages.FlattenMembers | src/logic.rs:724-733 | a pair is in the flattened table iff its category is in the order and its header belongs to that category |
| Stages.AllHeadersMembers | src/logic.rs:724-733 | with a full key order, the pairs are exactly the category/header pairs of the header table |
| Stages.HeadsOfAppend | src/logic.rs:724-733 | the headers of one category in a concatenated table are those of each part, in order |
| Stages.HeadsOfTagged | src/logic.rs:724-733 | the headers a tagged list gives a category are its own list or nothing |
| Stages.HeadsOfFlatten | src/logic.rs:724-733 | over distinct keys, the flattened table lists exactly a category's own headers, in table order |
| Stages.HeadsOfFlattenStep | src/logic.rs:724-733 | a category not visited before adds exactly its own headers to those picked out for it |
| Stages.HeadsOfAllHeaders | src/logic.rs:724-733 | the table lists exactly a category's own headers, in table order |
| Stages.MusicJobNeverPanics | src/logic.rs:775-782 | stage 1 extracts into `destination/alias` with the mode `Music`, which is not a category, so it never panics |
| Stages.Stage1PanicIsFinal | src/logic.rs:749-784 | once stage 1 panics, the remaining entries do nothing |
| Stages.Stage1StepShape | src/logic.rs:755-783 | one entry of stage 1 changes only status, progress and the repaint request, and sets the progress to `count/(3 total)` |
| Stages.Stage1StepPanics | src/logic.rs:755-783 | one entry of stage 1 panics iff it is an iterator error |
| Stages.Stage1Shape | src/logic.rs:749-784 | stage 1 changes only status, progress and the repaint request |
| Stages.Stage1Panics | src/logic.rs:749-784 | stage 1 panics iff some entry is an iterator error; otherwise the bar ends at one third |
| Stages.Stage1Entry | src/logic.rs:755-783 | the new state, disk and panic flag are those of one stage-1 step |
| Stages.RunStage1 | src/logic.rs:749-784 | the new state, disk and panic flag are those of the stage-1 fold |
| Stages.Stage2Shape | src/logic.rs:795-849 | stage 2 changes only status, progress and the repaint request; progress is `(count + total)/(3 total)` |
| Stages.CollectPairs | src/logic.rs:826-834 | the pairs collected for one file are exactly `PairsFor` |
| Stages.RunStage2 | src/logic.rs:786-849 | the new state and the pairs are those of the stage-2 fold |
| Stages.Stage3Jobs | src/logic.rs:856-874 | one job per pair, in order, into `destination/category/alias-or-name` |
| Stages.RunHttpStages | src/logic.rs:786-889 | the new state, disk and outcome are those of `HttpStagesEffect`: the stage-2 pairs become the stage-3 jobs, and the gate is released unless a job panicked |
| Stages.AllThread | src/logic.rs:715-889 | the new state, disk and outcome are those of `AllThreadEffect`: stage 1, then stages 2 and 3, panicking on an unreadable directory |
| Stages.ExtractAll | src/logic.rs:708-896 | the new state, disk and outcome are those of `ExtractAllEffect` |
| Stages.ExtractAllBusy | src/logic.rs:709-714 | with the `TASK_RUNNING` gate held, `extract_all` changes nothing |
| Stages.ExtractAllEnds | src/logic.rs:708-896 | the file lists are kept; it panics when the http directory is unreadable or an entry is an iterator error, and then the gate stays held; on completion it reports all-extracted, the bar is full when there were pairs, and it stays at two thirds when the http directory had entries but no pairs |
| Stages.HttpStagesEnds | src/logic.rs:786-889 | stages 2 and 3 keep both lists and the scan gate; they panic with the gate as it was, or complete, releasing it and reporting all-extracted |
| Stages.HttpStagesProgress | src/logic.rs:786-889 | on completion the bar is full when there were pairs, and at two thirds when the http directory had entries but no pairs |
| Stages.NamesOfAppend | src/logic.rs:786-849 | the names of a concatenation are the names of each part, in order |
| Stages.NamesInAppend | src/logic.rs:786-849 | the names of one category in a concatenation of pairs are those of each part, in order |
| Stages.NamesOfCopies | src/logic.rs:512-520 | the names of a file's pushes are copies of its name, one per set flag |
| Stages.AnnounceFlagsSnoc | src/logic.rs:826-834 | the match flags of a longer header list extend those of the shorter one |
| Stages.NameCopiesSnoc | src/logic.rs:826-834 | one more flag adds one more copy of the name iff it is set |
| Stages.NamesInFound | src/logic.rs:826-834 | one optional pair contributes its name to a category iff it is set and tagged with it |
| Stages.NamesInPairsFor | src/logic.rs:826-834 | the names a file contributes to a category are one copy per matching header of that category |
| Stages.EntryPairsAgree | src/logic.rs:826-834 | for one entry, stage 2 contributes to a category the same names as a refresh of that category pushes |
| Stages.Stage2AgreesWithRefresh | src/logic.rs:786-849 | for every category, the names stage 2 pairs with it are in order exactly the names a refresh of that category lists |
| Stages.Stage2PairsSound | src/logic.rs:786-849 | every pair names a category of the header table and a readable entry of the directory |
| Stages.PairsForSound | src/logic.rs:795-834 | every pair of an entry comes from a readable entry, carries its name and a category of the table |
| Stages.PairsForNames | src/logic.rs:826-834 | every pair for a file carries its name and a category of the table |
| Stages.HeldGateBlocksTasks | src/logic.rs:330-335 | with the `TASK_RUNNING` gate held (the same check as lines 643-648 and 709-714), `extract_all`, `extract_dir` and `delete_all_directory_contents` change nothing |
| Stages.Stage1PanicHoldsGate | src/logic.rs:749-784 | an iterator error in the music directory panics the worker and leaves the `TASK_RUNNING` gate held |
| Stages.DeleteUnreadableHoldsGate | src/logic.rs:345-352 | an unreadable directory makes deletion return with the `TASK_RUNNING` gate held |
| Swap.SwapAssets | src/logic.rs:898-927 | the new disk and the status are those of `SwapEffect` |
| Swap.CopyAssets | src/logic.rs:929-955 | the new disk and the status are those of `CopyEffect` |
| Swap.SwapExchanges | src/logic.rs:898-927 | with both files readable and writable, `a` holds the old `b`, `b` holds the old `a`, and swapped is reported |
| Swap.SwapExchangesContents | src/logic.rs:898-927 | a successful swap leaves every other file unchanged |
| Swap.SwapTwiceRestores | src/logic.rs:898-927 | swapping twice restores the disk |
| Swap.SwapUnreadableChangesNothing | src/logic.rs:898-927 | if either file cannot be read, nothing is written and failed-opening-file is reported |
| Swap.SwapHalfDone | src/logic.rs:904-908 | when `b` cannot be written, `a` already holds the old `b` and `b` is unchanged |
| Swap.CopyCopies | src/logic.rs:929-955 | `b` receives the old `a`, `a` and everything else are unchanged, and copied is reported |
| Swap.CopyFailureChangesNothing | src/logic.rs:929-955 | an unreadable `a` or an unwritable `b` changes nothing and reports failed-opening-file |
| Cli.GetTabIsTable | src/main.rs:214-216 | the string transforms map Music, Sounds, Images, Ktx and Rbxm to `music`, `sounds`, `images`, `ktx-files` and `rbxm-files` |
| Cli.KtxTab | src/main.rs:214-216 | Ktx maps to `ktx-files` |
| Cli.RbxmTab | src/main.rs:214-216 | Rbxm maps to `rbxm-files` |
| Cli.TabWithoutPatterns | src/main.rs:214-216 | a name with no `k` or `r` after lowercasing is returned lowercased and is otherwise unchanged |
| Cli.TabsAreCategories | src/main.rs:214-216 | a tab is a key of the header table iff the category is not Music |
| Cli.ExtractCommand | src/main.rs:223-236 | one asset is extracted iff an asset is named; otherwise the directory is refreshed and extracted iff a destination is given, and the user is told off when neither is |
| Cli.Dispatch | src/main.rs:238-277 | exactly one action, by priority: list, then extract or extract-all, then swap (which needs `--dest`), then cache-dir, check-for-updates, download-update, GUI |
| Cli.ListWithoutMode | src/main.rs:245-248 | list without a mode scans every category of `get_categories`, in that order, each in `cache/http` |
| Cli.ListMusicDoesNothing | src/main.rs:241-244 | listing music scans `cache/sounds` with the tab `music`, which refresh ignores |
| Cli.ExtractAssetDefaults | src/main.rs:225-227 | extract with a mode and an asset extracts `cache/asset` to the asset name when no destination is given |
| Cli.ExtractAllWithMode | src/main.rs:228-232 | extract-all with a mode and a destination refreshes and extracts the tab's directory |
| Cli.ExtractWithoutMode | src/main.rs:254-259 | extract or extract-all without a mode runs `extract_all` only when `--dest` is given, and complains otherwise |
| Cli.SwapDefaultsToImages | src/main.rs:261-264 | swap without a mode swaps in `cache/http`, the images directory |

## Left out

- Threads, `thread::spawn` and `join`: each worker is modelled as running to completion in order.
  The delete worker is never joined, but it is modelled the same way.
- The busy-wait of `refresh` on another scan (src/logic.rs:430-442) is one poll: with the list
  gate held, the call raises the stop flag and reports `Blocked`. A stop requested by another
  scan during this one is the parameter `stopAt`.
- The race between reading and setting `TASK_RUNNING` is not modelled. This is concurrency.
- Progress is an exact ratio, not a 32-bit float.
- Fluent messages and their arguments become message identifiers. Logging is not modelled.
- The file system calls (`read_dir`, `fs::read`, `fs::write`, `metadata`, `remove_dir_all`)
  are inputs: the `Disk` value and the entry listings. The listing and the disk are independent
  inputs.
- Scanner.DeleteAllDirectoryContents: the removal results are inputs; the files are not
  removed from the `Disk` value.
- `create_dir_all` and the copying of modification times (`filetime`) are left out. Both are
  file-system side effects that no modelled value depends on.
- Scanner.InfoOf: a failed `metadata` call (size 0) is not modelled; the size is the length of
  the entry's contents.
- The dialog-and-panic path of `detect_directory` and the error texts of `validate_directory`
  are left out. `Paths.DetectDirectory` returns `None` there; `validate_directory` is the
  `isDir` parameter applied to the resolved path.
- The temporary directory (`get_temp_dir`, `clean_up`) is not modelled.
- Printing an asset in command-line list mode (src/logic.rs:101-106) is left out; the file
  list is the same either way.
- The direct-listing branch of `refresh` for `music` (src/logic.rs:501-502) is not modelled.
  It is unreachable, because `refresh` returns first for any mode that is not a category
  (`Scanner.RefreshUnknownMode`).
- Lowercasing is ASCII only. Unicode case mapping is library behaviour.
- `PathBuf::set_extension` is the symbolic path `WithExt(base, ext)`.
- Paths compare as terms, not component by component as `PathBuf` equality does. Deletion
  refuses `Empty`, `Named("")` and `Named("/")`, but a spelling such as `//` that `PathBuf`
  also equates with the root is not refused. In `Batch.ListedKeepsSources` and
  `Batch.ExtractDirKeepsSources`, `dir != destination` likewise means two different terms.
- The configuration (`get_asset_alias`, `refresh_before_extract`, `cache_directory`), the
  `CACHE_DIRECTORY` global and the user name are parameters.
- The key order of the `HEADERS` hash map is the parameter `order`.
- The read-only getters (`get_file_list`, `get_filtered_file_list`, `get_status`,
  `get_progress`, `get_list_task_running`, `get_cache_directory`) are fields read through
  `Snap()`. `set_cache_directory` is not modelled, because the cache directory is a parameter.
- Font discovery, `clap` parsing, the updater and the GUI in src/main.rs are I/O and UI.
  `Cli.Dispatch` names the action and does not run it.
- Cli.Dispatch: when extract has a mode but neither an asset nor a destination, the result is a
  complaint without its exact message.
