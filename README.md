# anni: printing, album documents, the audio cache and the server's request rules

This project is a Dafny model of four parts of the anni music library tools.

- **`anni repo print`** (`RepoPrint.dfy`) covers four things.
  - Resolving a `catalog[/disc_id]` reference to a catalog and a 0-based disc index.
  - Printing an album's title, artist or release date, or one disc as a CUE sheet. The sheet has the header lines, an optional "Generated by" comment, and one `FILE`/`TRACK`/`INDEX` block per track.
  - Choosing which album a TOML or JSON print exports: by album id when the input parses as a UUID, by catalog otherwise.
  - Building the tree of a tag: its child tags' trees first, then the albums it tags.
- **The album document** (`AlbumDoc.dfy`): albums, discs and tracks.
  - A disc or track that omits its artist or type inherits it from its parent, and a disc that omits its title takes the album's.
  - Loading a document makes every field explicit.
  - `format()` drops every field equal to the value it would inherit.
  - `to_string` writes the document in a fixed key order without lyrics.
  - The sample document of the album tests is modelled in full.
- **The caching audio provider** (`CacheProvider.dfy`).
  - The pool maps keys to cache items and keeps a least-recently-used order.
  - The `album/dd/tt` key is shared by `get_audio` and `invalidate`.
  - Each item has a size and a `cached` flag, and dropping an item removes its file unless it is cached.
  - A reader's `poll_read` is a state machine that waits on a file still being filled.
  - The resource reader: it skips to the start of the requested range through a `take` of that many bytes, then is capped at the range's length. What it passes on is the range's projection of the file.
- **The annil server's request rules** (`Annil.dfy`).
  - The album list merge.
  - The authorisation gate.
  - The first enabled backend that has the album serves; otherwise the answer is 404.
  - Bitrate and content-type selection.
  - Backends configured with the same cache root share one pool, created the first time that root is seen.

`Text.dfy` holds the string helpers these rely on. They model Rust's `{}` and `{:02}` formatting, `u32::from_str`, `str::split` and one-character `str::replace`. `Wrappers.dfy` holds `Option` and `Result`.

Code whose source works step by step is imperative Dafny, each part proved against a specification function:
- the CUE writer (`RenderCue`);
- the tag-tree builder (`TreeBuilder`, `BuildTree`);
- `format()` on an album binding (`AlbumBinding.Format`);
- the cache pool, items and reader (classes);
- the handlers' backend loops (`Audio`, `Cover`, `Albums`);
- `init_state` (`InitState`).

Where the code and its documentation disagree, the model follows the code:
- A disc id of `0` and a disc id of `1` both select the first disc. `disc_id - 1` is applied only when the id is positive.
- Title, artist, date and CUE printing use the LAST album loaded for the catalog (`pop()`). TOML and JSON export use the FIRST (`[0]`, `get(0)`).
- `format()` keeps a disc's catalog even when it equals the album's. A disc's catalog is modelled as a required field (see "Left out").

## Model

| member | source | states |
|---|---|---|
| `Text.Pad2` | anni-provider/src/cache.rs:30-33 | `{:02}` gives decimal digits denoting exactly n: at least two digits, and exactly two below 100 |
| `Text.ParseU32` | anni/src/subcommands/repo/print.rs:39 | a successful `u32` parse never exceeds 2^32-1 |
| `Text.ParseU32Decimal` | anni/src/subcommands/repo/print.rs:39 | parsing the decimal rendering of any n ≤ 2^32-1 gives back n |
| `Text.ParseU32RejectsNonDigit` | anni/src/subcommands/repo/print.rs:39 | any character that is neither a digit nor a leading `+` makes the parse fail |
| `Text.SplitOn` | anni/src/subcommands/repo/print.rs:35 | `split('/')` gives at least one piece, no piece contains the separator, and joining the pieces with it gives back the input |
| `Text.SplitJoin` | anni/src/subcommands/repo/print.rs:35 | splitting undoes joining for pieces that contain no separator |
| `Text.ReplaceChar` | anni/src/subcommands/repo/print.rs:82 | replacement keeps the length and replaces exactly the occurrences of the pattern, position by position |
| `Text.ReplaceCharRemoves` | anni/src/subcommands/repo/print.rs:82 | after replacing `/` by `／` no `/` is left |
| `AlbumDoc.OmittedFieldsInherit` | anni-repo/tests/album.rs:77-99 | a track without artist or type resolves to the album's when its disc omits it too; a disc without a title takes the album title |
| `AlbumDoc.ExplicitFieldsOverride` | anni-repo/tests/album.rs:100-110 | an explicit track artist or type, or disc artist, is what the accessor returns |
| `AlbumDoc.DiscTitle` | anni-repo/tests/album.rs:77-110 | a disc's title: its own when given, the album's otherwise; the laws are in `OmittedFieldsInherit` and `ExplicitFieldsOverride` |
| `AlbumDoc.DiscArtist` | anni-repo/tests/album.rs:77-110 | a disc's artist: its own when given, the album's otherwise; the laws are in `OmittedFieldsInherit` and `ExplicitFieldsOverride` |
| `AlbumDoc.DiscType` | anni-repo/tests/album.rs:77-110 | a disc's type: its own when given, the album's otherwise; the laws are in `OmittedFieldsInherit` and `ExplicitFieldsOverride` |
| `AlbumDoc.TrackArtist` | anni-repo/tests/album.rs:77-110 | a track's artist: its own when given, else its disc's artist, else the album's; the laws are in `OmittedFieldsInherit` and `ExplicitFieldsOverride` |
| `AlbumDoc.TrackKind` | anni-repo/tests/album.rs:77-110 | a track's type: its own when given, else its disc's type, else the album's; the laws are in `OmittedFieldsInherit` and `ExplicitFieldsOverride` |
| `AlbumDoc.Inherited` | anni-repo/tests/album.rs:4-65 | the album as loaded: every disc and track field filled with the value its accessor resolves; `InheritKeepsView`, `InheritedIsExplicit` and `FormatInheritRoundTrip` state its laws |
| `AlbumDoc.Formatted` | anni-repo/tests/album.rs:164 | the album after `format()`: each disc and track field equal to the value it would inherit is dropped; `FormatKeepsView`, `FormattedIsCompact`, `FormatKeepsOverrides` and `FormatIdempotent` state its laws |
| `AlbumDoc.ToText` | anni-repo/tests/album.rs:120-162 | `to_string`: the document's lines, each followed by a line break, with no lyric entries; `ToTextIgnoresLyrics`, `SampleText` and `SampleFormattedText` state its laws |
| `AlbumDoc.InheritKeepsView` | anni-repo/tests/album.rs:69-115 | loading a document does not change what any accessor returns |
| `AlbumDoc.InheritedIsExplicit` | anni-repo/tests/album.rs:120-162 | after loading, every disc has a title, artist and type, and every track an artist and type |
| `AlbumDoc.FormatKeepsView` | anni-repo/tests/album.rs:164-196 | `format()` does not change what any accessor returns |
| `AlbumDoc.FormattedIsCompact` | anni-repo/tests/album.rs:172-186 | after `format()` no disc or track field equals the value it would inherit |
| `AlbumDoc.FormatKeepsOverrides` | anni-repo/tests/album.rs:187-195 | `format()` keeps every field that differs from its inherited value, and keeps titles, lyrics and disc catalogs |
| `AlbumDoc.FormatKeepsHeaderAndOrder` | anni-repo/tests/album.rs:165-173 | `format()` keeps the album header, the disc catalogs, and the number and order of discs and tracks |
| `AlbumDoc.FormatDependsOnViewOnly` | anni-repo/tests/album.rs:164-196 | two documents with the same resolved values format to the same document |
| `AlbumDoc.InheritDependsOnViewOnly` | anni-repo/tests/album.rs:4-65 | two documents with the same resolved values load to the same document |
| `AlbumDoc.FormatIdempotent` | anni-repo/tests/album.rs:164 | formatting twice is formatting once |
| `AlbumDoc.FormatInheritRoundTrip` | anni-repo/tests/album.rs:119-165 | loading a formatted document restores the loaded one, and formatting a loaded document equals formatting the original |
| `AlbumDoc.AlbumBinding.constructor` | anni-repo/tests/album.rs:119 | the binding holds the loaded album |
| `AlbumDoc.AlbumBinding.Format` | anni-repo/tests/album.rs:164 | `album.format()` in place, disc by disc, leaves exactly the formatted album |
| `AlbumDoc.TracksLinesIgnoreLyrics` | anni-repo/tests/album.rs:133-161 | track entries that differ only in their lyrics serialise alike |
| `AlbumDoc.ToTextIgnoresLyrics` | anni-repo/tests/album.rs:120-162 | `to_string` writes no lyric entries: dropping every lyric leaves the text unchanged |
| `AlbumDoc.SampleAccessors` | anni-repo/tests/album.rs:68-115 | the loaded sample album has the expected title, artist, date, type and catalog, and tracks 1-4 by やなぎなぎ (normal) and 5-6 by 麻枝准 (instrumental) |
| `AlbumDoc.SampleLoaded` | anni-repo/tests/album.rs:4-65 | loading the sample document fills every disc and track field with its inherited value |
| `AlbumDoc.SampleFormatted` | anni-repo/tests/album.rs:164-196 | formatting the loaded sample strips the disc's title, artist and type and the first four tracks' artist and type, and keeps the instrumental overrides |
| `AlbumDoc.SampleText` | anni-repo/tests/album.rs:120-162 | the loaded sample serialises to exactly the expected text |
| `AlbumDoc.SampleFormattedText` | anni-repo/tests/album.rs:165-196 | the formatted sample serialises to exactly the expected text |
| `RepoPrint.ParseReference` | anni/src/subcommands/repo/print.rs:35-40 | a parsed catalog is a `/`-free prefix of the input, and the disc index is below 2^32-1; the only failure is an invalid disc id |
| `RepoPrint.BareCatalogSelectsFirstDisc` | anni/src/subcommands/repo/print.rs:37-39 | a reference without `/` selects disc index 0 |
| `RepoPrint.DiscIdField` | anni/src/subcommands/repo/print.rs:35-40 | after `catalog/`, only the next `/`-free piece matters: it must parse as a `u32`, and a positive id n gives index n-1 while 0 gives 0 |
| `RepoPrint.DiscZeroAndOneAgree` | anni/src/subcommands/repo/print.rs:40 | `catalog/0` and `catalog/1` both select index 0 |
| `RepoPrint.SingleDigitId` | anni/src/subcommands/repo/print.rs:35-40 | `catalog/d` for one digit d parses to index d-1, or 0 when d is 0 |
| `RepoPrint.RenderParseRoundTrip` | anni/src/subcommands/repo/print.rs:37-40 | `catalog/n` for 1 ≤ n ≤ 2^32-1 parses to index n-1 |
| `RepoPrint.ValidDiscId` | anni/src/subcommands/repo/print.rs:35-40 | `catalog/id` with a `/`-free id that parses as n selects index n-1, or 0 when n is 0 |
| `RepoPrint.InvalidDiscIdRejected` | anni/src/subcommands/repo/print.rs:39 | a disc id that is not a `u32` is an invalid-disc-id error |
| `RepoPrint.LoadAlbums` | anni/src/subcommands/repo/print.rs:43 | every album loaded has the catalog, and every stored album with the catalog is loaded |
| `RepoPrint.MatchingPositions` | anni/src/subcommands/repo/print.rs:43 | the positions of the stored albums with the catalog, strictly increasing, and all of them |
| `RepoPrint.LoadAlbumsInOrder` | anni/src/subcommands/repo/print.rs:43-44 | the k-th album loaded is the album at the k-th position holding the catalog, and there are no others, so loading keeps the load order that `pop()` and `[0]` rely on |
| `RepoPrint.AlbumById` | anni/src/subcommands/repo/print.rs:109 | an album is found by id exactly when one is stored under that id |
| `RepoPrint.AlbumByIdFirst` | anni/src/subcommands/repo/print.rs:109 | the lookup finds the first album stored under the id |
| `RepoPrint.TrackFileName` | anni/src/subcommands/repo/print.rs:79-83 | the file name is the track number as `{:02}` (two digits that read back as the number below 100), then `. `, then `.flac` at the end, with no `/` anywhere |
| `RepoPrint.TrackFileNameParts` | anni/src/subcommands/repo/print.rs:79-83 | read back, the file name starts with the padded number, and between `. ` and `.flac` lies the title with each `/` replaced by `／` |
| `RepoPrint.RenderCue` | anni/src/subcommands/repo/print.rs:50-88 | the writes of the CUE loop produce exactly the disc's CUE sheet |
| `RepoPrint.TracksCueLines` | anni/src/subcommands/repo/print.rs:69-87 | each track contributes exactly five lines |
| `RepoPrint.GeneratedByIff` | anni/src/subcommands/repo/print.rs:61-67 | the sheet starts with the header lines, and the comment follows them exactly when it was asked for |
| `RepoPrint.CueSheetLines` | anni/src/subcommands/repo/print.rs:51-87 | the sheet's lines are the three header lines, the comment line (empty if not asked for), then five lines per track |
| `RepoPrint.CueTrackBlock` | anni/src/subcommands/repo/print.rs:69-87 | the sheet has 4+5n lines, and lines 4+5k to 8+5k are the `FILE`, `TRACK 01 AUDIO`, `TITLE`, `PERFORMER` and `INDEX 01 00:00:00` lines of track k+1 |
| `RepoPrint.CueSheet` | anni/src/subcommands/repo/print.rs:49-88 | the CUE text of one disc: header lines, the optional comment, one block per track; `RenderCue`, `CueSheetLines`, `GeneratedByIff` and `CueTrackBlock` state its laws |
| `RepoPrint.LastLoaded` | anni/src/subcommands/repo/print.rs:43-44 | an album is printed for the catalog exactly when one is stored with it, and it has that catalog |
| `RepoPrint.LastLoadedIsLast` | anni/src/subcommands/repo/print.rs:44 | `pop()` takes the last album stored under the catalog |
| `RepoPrint.PrintField` | anni/src/subcommands/repo/print.rs:45-92 | title, artist and date print the album's title, artist and release date followed by a newline; a CUE print of disc index i succeeds exactly when i is in range and then prints the CUE sheet of disc i; otherwise it fails naming the 1-based disc |
| `RepoPrint.RunPrintAlbum` | anni/src/subcommands/repo/print.rs:33-95 | the printing step parses the reference first, then uses the last loaded album, then prints the field or the CUE sheet |
| `RepoPrint.PrintAlbum` | anni/src/subcommands/repo/print.rs:33-95 | the printing of a field for a reference: the parse error first, then "album not found", then the field of the last album loaded; `RunPrintAlbum`, `InvalidIdBeforeLookup`, `CueDiscPastEnd`, `CueFirstDiscByDefault`, `SelectedDiscSheet` and `PrintNthDisc` state its laws |
| `RepoPrint.InvalidIdBeforeLookup` | anni/src/subcommands/repo/print.rs:39-43 | an invalid disc id is reported whatever the repository holds |
| `RepoPrint.CueDiscPastEnd` | anni/src/subcommands/repo/print.rs:89-91 | a CUE print of disc n past the last disc fails with "disc n not found" |
| `RepoPrint.CueFirstDiscByDefault` | anni/src/subcommands/repo/print.rs:37-49 | `catalog`, `catalog/0` and `catalog/1` print the same sheet, that of the first disc |
| `RepoPrint.SelectedDiscSheet` | anni/src/subcommands/repo/print.rs:43-49 | any reference that selects disc index i of a catalog whose last loaded album has more than i discs prints the CUE sheet of that album's disc i |
| `RepoPrint.PrintNthDisc` | anni/src/subcommands/repo/print.rs:35-49 | `catalog/n`, for 1 ≤ n ≤ 2^32-1 within the album's discs, prints the CUE sheet of the n-th disc of the last album loaded for the catalog |
| `RepoPrint.ParseUuid` | anni/src/subcommands/repo/print.rs:97 | a parsed id is 32 hexadecimal digits, read from an input of length 32 or 36 |
| `RepoPrint.ParseSimpleForm` | anni/src/subcommands/repo/print.rs:97 | the 32-digit form of an id parses back to that id |
| `RepoPrint.ParseHyphenatedForm` | anni/src/subcommands/repo/print.rs:97 | the 8-4-4-4-12 form of an id parses back to that id |
| `RepoPrint.OtherLengthsAreCatalogs` | anni/src/subcommands/repo/print.rs:115-117 | an input of any other length is taken as a catalog |
| `RepoPrint.SelectExport` | anni/src/subcommands/repo/print.rs:97-127 | the only export failure is a missing album |
| `RepoPrint.ExportById` | anni/src/subcommands/repo/print.rs:97-114 | either textual form of a stored album's id exports that album |
| `RepoPrint.ExportByCatalog` | anni/src/subcommands/repo/print.rs:115-126 | an input that is not an id exports the first album stored under that catalog |
| `RepoPrint.FirstLoaded` | anni/src/subcommands/repo/print.rs:115-126 | when the k-th stored album is the first with the catalog, loading that catalog gives a non-empty list whose first album is that one, which `[0]` takes |
| `RepoPrint.PrintAndExportPickOppositeEnds` | anni/src/subcommands/repo/print.rs:42-44 | for a catalog loaded several times, title printing uses the last album and export uses the first |
| `RepoPrint.TreeBuilder.constructor` | anni/src/subcommands/repo/print.rs:139 | a new builder holds just the root node |
| `RepoPrint.TreeBuilder.BeginChild` | anni/src/subcommands/repo/print.rs:154 | opens a child that becomes the current node |
| `RepoPrint.TreeBuilder.EndChild` | anni/src/subcommands/repo/print.rs:156 | closes the current node and appends it to its parent's children |
| `RepoPrint.TreeBuilder.AddEmptyChild` | anni/src/subcommands/repo/print.rs:162 | appends a leaf to the current node |
| `RepoPrint.TreeBuilder.Build` | anni/src/subcommands/repo/print.rs:141 | the finished tree is the root node |
| `RepoPrint.BuildTree` | anni/src/subcommands/repo/print.rs:151-165 | the recursion gets through exactly when every child tag below the tag is known and every album tagged below it is stored (otherwise an `unwrap` panics); then it has appended to the current node exactly the children of the tag's tree: the child tags' trees, then the tagged albums' leaves |
| `RepoPrint.AddChildTrees` | anni/src/subcommands/repo/print.rs:152-157 | the loop over child tags gets through exactly when each child tag is known and its tree gets through, and then has appended, in order, each child tag's whole tree to the current node |
| `RepoPrint.AddTagChild` | anni/src/subcommands/repo/print.rs:154-156 | `begin_child`, the recursive call and `end_child` get through exactly when the child's tree does, and then append exactly the child tag's tree to the current node and leave the rest of the stack as it was |
| `RepoPrint.AddAlbumLeaves` | anni/src/subcommands/repo/print.rs:159-164 | the loop over tagged albums gets through exactly when every tagged album is stored (the `unwrap` at line 161), and then has appended, in order, one leaf per album titled with the album's title |
| `RepoPrint.UnknownChildPanics` | anni/src/subcommands/repo/print.rs:143-146 | a child tag the manager does not know makes the print of its parent panic |
| `RepoPrint.UnstoredAlbumPanics` | anni/src/subcommands/repo/print.rs:159-161 | a tagged album that is not stored makes the print of its tag panic |
| `RepoPrint.ChildPanicSpreads` | anni/src/subcommands/repo/print.rs:152-156 | a panic while building a child tag's tree is a panic of the parent's print |
| `RepoPrint.Extend` | anni/src/subcommands/repo/print.rs:152-164 | appending children to the current node keeps the stack's depth and every enclosing node, and adds the children after the node's existing ones |
| `RepoPrint.ExtendTwice` | anni/src/subcommands/repo/print.rs:152-164 | appending two batches of children one after the other is appending them together |
| `RepoPrint.PrintTagTree` | anni/src/subcommands/repo/print.rs:134-165 | an unknown tag is the "Tag not found" error; a missing child tag or tagged album anywhere below it is the panic of an `unwrap`; otherwise the result is the tag's whole tree |
| `RepoPrint.TagTreeHeight` | anni/src/subcommands/repo/print.rs:151-165 | the tree is at most two levels taller than the tag's rank, so the recursion is bounded |
| `RepoPrint.ChildTreesHeight` | anni/src/subcommands/repo/print.rs:152-157 | every child tag's tree is at most one level taller than the parent tag's rank |
| `RepoPrint.TagTreeChildLabels` | anni/src/subcommands/repo/print.rs:143-163 | a node is labelled `[type] name`, its child tags come first in order, and then its albums' titles in order |
| `CacheProvider.EffectiveMaxSize` | anni-provider/src/cache.rs:106 | a budget of 0 is stored as `usize::MAX`, any other as given |
| `CacheProvider.CacheKeyParts` | anni-provider/src/cache.rs:63 | the key splits on `/` back into the album id and the two-digit disc and track |
| `CacheProvider.CacheKey` | anni-provider/src/cache.rs:63 | the text hashed into the key: album id, `/`, disc as `{:02}`, `/`, track as `{:02}`, the same text as `invalidate` builds on lines 30-33; `CacheKeyParts` and `CacheKeyInjective` state its laws |
| `CacheProvider.CacheKeyInjective` | anni-provider/src/cache.rs:30-33 | different requests (album id without `/`) get different keys, so `invalidate` and `get_audio` agree on one entry |
| `CacheProvider.Project` | anni-provider/src/cache.rs:272-280 | the projection is no longer than the data, nor than a bounded length |
| `CacheProvider.ProjectIsSlice` | anni-provider/src/cache.rs:272-280 | the reader yields the contiguous slice from `start`, cut at `start + length` when bounded |
| `CacheProvider.ProjectFull` | anni-provider/src/cache.rs:66-69 | the full range yields everything |
| `CacheProvider.ProjectCompose` | anni-provider/src/cache.rs:272-280 | skipping and then reading a range is reading the shifted range |
| `CacheProvider.CacheItem.constructor` | anni-provider/src/cache.rs:216-229 | a new item takes its extension, size and duration from the audio info |
| `CacheProvider.CacheItem.Info` | anni-provider/src/cache.rs:283-287 | the info an item reports carries its current size |
| `CacheProvider.CacheItem.SetSize` | anni-provider/src/cache.rs:235-237 | sets the size only |
| `CacheProvider.CacheItem.SetCached` | anni-provider/src/cache.rs:243-245 | sets the cached flag only |
| `CacheProvider.CacheItem.CompleteCopy` | anni-provider/src/cache.rs:154-158 | after the background copy the size is the bytes copied and the item is cached |
| `CacheProvider.CacheItem.Drop` | anni-provider/src/cache.rs:294-305 | dropping an item removes its file exactly when it is not cached |
| `CacheProvider.SizeSumRemove` | anni-provider/src/cache.rs:190-196 | the sum of sizes does not depend on the order the items are added up in |
| `CacheProvider.Without` | anni-provider/src/cache.rs:183 | popping a key leaves exactly the other keys and keeps them distinct; an absent key changes nothing |
| `CacheProvider.WithoutKeepsOrder` | anni-provider/src/cache.rs:183 | in an order without repeats, popping a key removes just its position, and the other keys keep their relative order |
| `CacheProvider.Promote` | anni-provider/src/cache.rs:172 | touching a key takes it out of its position and makes it the most recent; the other keys keep their relative order, and the keys stay distinct |
| `CacheProvider.ConsistentAfterAdmit` | anni-provider/src/cache.rs:137-147 | inserting a new key as most recent, after evicting the least recent or not, keeps the map and the order in step |
| `CacheProvider.CachePool.constructor` | anni-provider/src/cache.rs:103-110 | a new pool is empty, with its budget 0 taken as unlimited |
| `CacheProvider.CachePool.HasCache` | anni-provider/src/cache.rs:186-188 | `has_cache` is membership in the recency order, which for a consistent pool is membership in the map |
| `CacheProvider.CachePool.SpaceUsed` | anni-provider/src/cache.rs:190-196 | the space used is the sum of the items' sizes, and 0 for an empty pool |
| `CacheProvider.CachePool.Remove` | anni-provider/src/cache.rs:181-184 | the key leaves both the map and the order, its item is marked not cached, and nothing else changes |
| `CacheProvider.CachePool.Fetch` | anni-provider/src/cache.rs:112-179 | a hit refreshes the key and serves its item. A successful miss inserts a fresh, not yet cached item at `root/key` as most recent, after evicting exactly the least recent entry if the space used was over budget. A failed miss changes nothing |
| `CacheProvider.CachePool.FetchHit` | anni-provider/src/cache.rs:161-177 | a hit keeps the map, makes the key the most recent, and serves its item's current info or the open error |
| `CacheProvider.CachePool.FetchMiss` | anni-provider/src/cache.rs:118-160 | a failed inner request or file creation leaves the pool as it was and reports that error; a success admits a fresh item and serves it |
| `CacheProvider.CachePool.AdmitNew` | anni-provider/src/cache.rs:122-147 | the admitted key is the most recent and maps to a fresh, not yet cached item at `root/key`; over budget exactly the least recent entry leaves; the pool stays consistent |
| `CacheProvider.CachePool.Admit` | anni-provider/src/cache.rs:127-147 | the new item is made at `root/key` with the given info and inserted after the eviction step; items already in the pool are untouched |
| `CacheProvider.CachePool.MakeRoom` | anni-provider/src/cache.rs:122-144 | the key joins the recency order last; over budget, as intended, the first key of that order leaves the order and the map, and its item is marked not cached |
| `CacheProvider.CachePool.EvictLeastRecent` | anni-provider/src/cache.rs:137-144 | the intended `pop_lru` then `remove`: exactly the least recent key leaves the order and the map, and its item is marked not cached |
| `CacheProvider.CachePool.OverBudgetHasEntry` | anni-provider/src/cache.rs:137-140 | a consistent pool over budget has a least recent key, so `pop_lru().unwrap()` cannot panic |
| `CacheProvider.InnerProvider.GetAudio` | anni-provider/src/cache.rs:65-70 | each inner request is recorded and answered |
| `CacheProvider.Cache.Invalidate` | anni-provider/src/cache.rs:29-34 | the entry under `album/dd/tt` leaves the map and the recency order, which otherwise keeps its order; the removed item is marked not cached; all other items are unchanged |
| `CacheProvider.Cache.GetAudio` | anni-provider/src/cache.rs:54-73 | `get_audio` gives what `fetch` gives under the key `album/dd/tt`. A hit does not reach the inner provider, promotes the key and serves the stored item's info, or the open error. A miss asks the inner provider once for the full range. If that answer or the file creation fails, the pool is unchanged and that error is returned. Otherwise a fresh, uncached item holding the answer's info is stored under the key at `root/key` and served with the requested range, or the open error is returned. The key becomes the most recent, and over budget the least recent entry first leaves the order and the map, with its item marked not cached |
| `CacheProvider.Cache.OnMiss` | anni-provider/src/cache.rs:65-70 | the `on_miss` future: the inner provider is asked for the full file, and answers, exactly when the fetch misses |
| `CacheProvider.PollStep` | anni-provider/src/cache.rs:316-373 | a poll never decreases the count of bytes read |
| `CacheProvider.CacheItemReader.constructor` | anni-provider/src/cache.rs:261-268 | a new reader has read nothing and has no timer |
| `CacheProvider.CacheItemReader.PollRead` | anni-provider/src/cache.rs:316-373 | one `poll_read` is one step of the reader state machine |
| `CacheProvider.ToAudioResourceReader` | anni-provider/src/cache.rs:270-291 | a fresh reader over the item: for a positive start, the skip stops at most `start` bytes in, and when it completes it has reached `start` or the end of the file; the reader is then capped at `range.length()`; with it, the item's current info and the requested range |
| `CacheProvider.TakeReader.constructor` | anni-provider/src/cache.rs:274-278 | a take has passed nothing on and has its whole limit left |
| `CacheProvider.TakeReader.PollRead` | anni-provider/src/cache.rs:274-278 | with no room left a take reports the end without reading; otherwise it is one inner poll into a buffer cut to the room left; the bytes passed on and the room left keep their sum; its end is the limit used up or the file's end |
| `CacheProvider.SkipStart` | anni-provider/src/cache.rs:272-275 | the skip copies through a take of `start` bytes: it moves the reader forward by at most `start` bytes, and when it completes it has moved exactly `start` bytes or reached the end of the file |
| `CacheProvider.ResourceBytes` | anni-provider/src/cache.rs:270-291 | a reader whose skip ended at the range start (or the file's end before it), and which then passed on bytes up to its own end, has passed on exactly the range's projection of the file |
| `CacheProvider.TimerBlocks` | anni-provider/src/cache.rs:322-331 | a pending timer blocks the read and changes nothing |
| `CacheProvider.TimerCleared` | anni-provider/src/cache.rs:328-363 | past the timer it is cleared, and only an empty read of an uncached item arms it again |
| `CacheProvider.DataAdvances` | anni-provider/src/cache.rs:343-345 | a read of n > 0 bytes adds n to the count and is ready |
| `CacheProvider.EofExactly` | anni-provider/src/cache.rs:346-355 | the end is reported exactly when an empty read meets a cached item read whole |
| `CacheProvider.RetryWhenShort` | anni-provider/src/cache.rs:347-351 | an empty read of a cached item not yet read whole wakes and retries |
| `CacheProvider.WaitWhileCopying` | anni-provider/src/cache.rs:356-363 | an empty read of an uncached item arms the timer and is pending |
| `CacheProvider.FilledCountsData` | anni-provider/src/cache.rs:342-345 | the count grows only by the bytes of a successful read |
| `CacheProvider.FailedMissPoisonsKey` | anni-provider/src/cache.rs:118-173 | as written, a miss whose inner request fails leaves the key behind, and the next fetch of it panics |
| `CacheProvider.FailedMissOnEmptyPool` | anni-provider/src/cache.rs:118-173 | the same for an empty pool, one failed request and the same request again |
| `CacheProvider.FetchAsWritten` | anni-provider/src/cache.rs:118-173 | the source's fetch: once a fetch holds the recency lock forever, every fetch blocks; a miss blocks exactly when it finds the pool over budget after a successful request and file creation; a served item is in the map with the size served |
| `CacheProvider.RunAsWritten` | anni-provider/src/cache.rs:118-173 | one outcome per request, each fetch on the pool the previous one left |
| `CacheProvider.OverBudgetMissBlocks` | anni-provider/src/cache.rs:136-144 | as written, a successful miss over budget never returns, and every later fetch of any key blocks |
| `CacheProvider.BlockedStaysBlocked` | anni-provider/src/cache.rs:186-188 | with the recency lock held for good, every request of any sequence blocks in `has_cache`, which every fetch calls first (line 118) |
| `CacheProvider.OverBudgetOnOneItem` | anni-provider/src/cache.rs:136-144 | a pool with one 2-byte item and a budget of 1: a request for a new key blocks, and so does the next request for the stored key |
| `Annil.MergedKeys` | annil/src/main.rs:37-43 | a user's list holds a catalog exactly when some backend lists it |
| `Annil.MergedLastWins` | annil/src/main.rs:40-43 | a catalog listed by several backends carries the last one's entry |
| `Annil.Merged` | annil/src/main.rs:37-43 | every backend's album map, each extending the ones before it; `MergedKeys` and `MergedLastWins` state its laws |
| `Annil.Albums` | annil/src/main.rs:33-51 | a user gets every backend's albums merged in order; a share claim gets only the albums it names |
| `Annil.Preference` | annil/src/main.rs:74 | guests always prefer "low"; others prefer their query, or "medium" |
| `Annil.SelectBitrate` | annil/src/main.rs:75-81 | no transcoding exactly for "lossless"; 320k exactly for "high", 192k exactly for "medium", and 128k for "low" and every other preference |
| `Annil.ContentType` | annil/src/main.rs:87-90 | the content type is `audio/aac` when transcoding, the original type otherwise |
| `Annil.GuestsGetLow` | annil/src/main.rs:74-81 | a guest is served at 128k whatever it asks for |
| `Annil.UsersDefaultToMedium` | annil/src/main.rs:74-81 | a user without a preference is served at 192k |
| `Annil.LosslessOnlyOnRequest` | annil/src/main.rs:74-81 | the original is streamed exactly to a user asking for "lossless" |
| `Annil.UnknownPreferenceIsLow` | annil/src/main.rs:80 | an unknown preference falls back to 128k |
| `Annil.ContentTypeIsOriginType` | annil/src/main.rs:84-90 | the content type repeats the origin type exactly when nothing is transcoded or the original is AAC |
| `Annil.FirstServing` | annil/src/main.rs:66-67 | finds the first enabled backend having the album, or reports that none does |
| `Annil.Audio` | annil/src/main.rs:59-121 | the audio handler's loop gives the answer of the first matching backend |
| `Annil.Cover` | annil/src/main.rs:124-146 | the cover handler's loop gives the answer of the first matching backend |
| `Annil.AudioAnswer` | annil/src/main.rs:59-121 | the audio handler's answer: Unauthorized, a 404 when no enabled backend has the album or the first one lacks the track, or a stream from that backend at the selected bitrate; `AuthorizationFirst`, `ServedByFirstMatch`, `NoBackendIsNotFound`, `FirstFailureIsFinal` and `StreamDescribesOriginal` state its laws |
| `Annil.CoverAnswer` | annil/src/main.rs:124-146 | the cover handler's answer: Forbidden, a 404, or a JPEG from the first enabled backend with the album in its wide set; `AuthorizationFirst` and `CoverServedByFirstMatch` state its laws |
| `Annil.AuthorizationFirst` | annil/src/main.rs:62-64 | a claim that cannot fetch gets Unauthorized for audio and Forbidden for covers, whatever the backends hold |
| `Annil.ServedByFirstMatch` | annil/src/main.rs:66-73 | a stream comes from an enabled backend that has the album and the track, and every earlier backend lacks the album or is disabled |
| `Annil.NoBackendIsNotFound` | annil/src/main.rs:120 | with no enabled backend having the album, the answer is 404 |
| `Annil.FirstFailureIsFinal` | annil/src/main.rs:68-71 | a failure of the first matching backend is a 404 even when a later backend has the track |
| `Annil.StreamDescribesOriginal` | annil/src/main.rs:83-90 | a stream reports the original's type, size and duration, the selected bitrate and the matching content type |
| `Annil.CoverServedByFirstMatch` | annil/src/main.rs:131-138 | a cover is a JPEG from the first enabled backend with the album in its wide set |
| `Annil.FirstWithRoot` | annil/src/main.rs:167 | finds the first configuration with a given cache root, or reports that none has it |
| `Annil.InitState` | annil/src/main.rs:148-177 | one backend per configuration, with its name and enabled flag; one fresh pool per distinct root, with the budget of the first configuration naming that root, valid and empty as `CachePool::new` leaves it; every cached backend with that root shares it |
| `Annil.AddBackend` | annil/src/main.rs:153-176 | one loop turn adds exactly one backend, keeps every backend matched to its configuration and the pools to the roots seen so far; pools kept are the old ones, new ones are fresh, and empty pools stay empty |
| `Annil.PoolFor` | annil/src/main.rs:165-172 | a configuration with a cache gets the pool of its root, created with its budget, valid, with no item and no recency entry when the root is new, and shared otherwise; one without a cache gets none; existing pools are kept |
| `Annil.BackendsFitStep` | annil/src/main.rs:172-176 | pushing the next backend with its name, switch and pool keeps every backend matched to its configuration |
| `Annil.PoolsFitStep` | annil/src/main.rs:165-171 | after one more configuration the pools are exactly those of the roots seen so far, each with the budget of the first configuration naming it |
| `Annil.RootsUpToMeans` | annil/src/main.rs:165-171 | a root has a pool after n configurations exactly when one of the first n names it |
| `Annil.FirstAtNewRoot` | annil/src/main.rs:167-170 | a root not named before configuration i is first named there |

## Left out

- Reading a file of the repository, the TOML parser, and TOML or JSON serialisation. These are library calls. The album document is a datatype, and `to_string` is modelled only as far as the album tests fix its text.
- `RepoPrint.PrintField`, `RepoPrint.AlbumLeaf`, `RepoPrint.AddAlbumLeaves`: the title print and the tag tree's album leaves use the album title. The edition that `full_title` may add is not part of this model.
- `AlbumDoc.Disc`: a disc's catalog is a required field. Loading a document whose disc omits its catalog is not modelled.
- `RepoPrint.LoadAlbums`: `load_albums(catalog)` is a lookup of the repository manager, whose source is not part of this model. The model takes it to return, in stored order, the stored albums whose own catalog field equals the catalog. That every loaded album has the catalog is this assumption, not a fact proved about the manager.
- I/O errors of `load_albums`, `into_owned_manager`, the output writer and `TagRef::from_cow_str` are left out. The tag reference is taken as given.
- The CUE comment's version string is a parameter. The crate version is a build-time constant.
- `RepoPrint.ParseUuid` accepts only the simple (32 digits) and hyphenated (36 characters) forms. The other forms the uuid crate may accept (braced, `urn:uuid:`) are not modelled.
- `RepoPrint.PrintTagTree`, `RepoPrint.TagTreeOf`: these require a rank (`Ranked`) that decreases from a tag to its child tags. The program would recurse without end on a cycle.
- The printed tree's colouring and `ptree` output are left out. The tag type is taken as its printed text.
- `Album::format`'s own source is not part of this model. Its behaviour is as the album tests fix it.
- SHA-256 in `do_hash`: the pool's key is the text before hashing. The hash is taken as injective.
- The per-key mutex and the in-flight wait are left out, along with DashMap and RwLock. The pool is modelled one request at a time, so a key in the recency order is always in the map. The one effect of the locks within a single request, the eviction blocking on itself, is kept in `FetchAsWritten` (see "Findings").
- `CacheProvider.CachePool.MakeRoom`, `CacheProvider.CachePool.EvictLeastRecent`: these give the intended eviction, which completes. The source's eviction keeps the write guard of `last_used` while `remove` asks for it again, and never completes; that behaviour is `CacheProvider.FetchAsWritten`.
- The spawned background copy is the separate step `CacheItem.CompleteCopy`. File creation and opening are outcomes passed in. The file's presence is a ghost "file present" flag.
- `CacheProvider.CacheItem.Drop`: removing the file of an uncached item is taken to succeed. A failed `remove_file` is only logged (cache.rs:300-302), and that log is left out.
- `CacheProvider.Cache.GetAudio`: the inner provider's answer is a function of the request. Its reader and the bytes it yields are not modelled. The contract does not restate that the items already stored keep their size and cached flag. `CachePool.Fetch`, whose result and new pool state `GetAudio` passes on, states that.
- `CacheProvider.PollStep`: the file read and the timer are inputs of each step. Buffer capacity and wakers are left out.
- `CacheProvider.Project`: `Range::length()` is taken as a given optional length. The `Range` type's own arithmetic is not part of this model.
- `CacheProvider.SkipStart`: the polls the awaited copy goes through are an input. When they run out before the copy ends, the skip reports that it is still awaited. An error ends the skip early, and as in the source it is ignored.
- `CacheProvider.ResourceBytes`: file reads are byte counts. The file's content is a parameter of the lemma, and the lemma assumes that the reader never yields past that content.
- The size sum is over unbounded naturals. `usize` overflow of `space_used` is not modelled.
- `Annil.Audio`: `can_fetch` and `is_guest` come from the JWT claim and are parameters. The backend's `has_album`, `has_album_wide`, `get_audio` and `get_cover` are data of the backend, because the backend's source is not part of this model.
- The ffmpeg transcoding process, response streaming, HTTP server setup, CORS and JWT checking are left out.
- `Annil.InitState`: backend construction (File or Drive) and its errors are left out. The configuration's backend map is taken in a fixed order.

## Findings

| source | as written | input that shows it | evidently intended | confidence | as-written member | corrected member |
|---|---|---|---|---|---|---|
| anni-provider/src/cache.rs:118-173 | On a miss the key is put in the recency order (line 122) before the inner request (line 125) and the file creation (line 129), and either `?` returns without inserting an item or removing the key. The next fetch of that key is taken as a hit, finds no item and unwraps a missing map entry (line 173). | An empty pool. Fetch key k while the inner provider fails. Then fetch k again. | A failed miss takes the key out of the recency order again, so the next fetch is a fresh miss. | not executed | `CacheProvider.FailedMissPoisonsKey` | `CacheProvider.CachePool.Fetch` |
| anni-provider/src/cache.rs:136-144 | When the pool is over budget, the eviction takes the write guard of `last_used` (line 139) and keeps it while `remove` (line 143) asks for the same lock (line 183). The `parking_lot` lock is not reentrant, so the request blocks for good while holding it, and every later `has_cache` (line 187) waits for it. | A pool with one 2-byte item and a budget of 1. Fetch another key whose request and file creation succeed. | The guard is dropped before `remove`, so the least recent entry is removed and the new item is inserted. | not executed | `CacheProvider.OverBudgetMissBlocks` | `CacheProvider.CachePool.MakeRoom` |
