# canvas-lms-sync, modelled in Dafny

canvas-lms-sync mirrors a Canvas LMS course onto the local disk. It has two
modes. **Files mode** walks the course's folder tree. Every file goes to the
path made of its folders' names and its display name. **Modules mode** walks
the course's modules. Every `File` item goes under
`Modules/<module>/<enclosing sub-headers…>`, and every external URL or tool
item becomes a link shortcut. In both modes a file whose local copy already
has the remote size is skipped; every other file becomes a download task for
the download engine. The
Canvas REST API is paged: each listing follows the `next` relation of the
`Link` response header until there is none.

The project models that core:

| file | module | source |
|---|---|---|
| `wrappers.dfy` | `Wrappers` | `Option` / `Result` |
| `path.dfy` | `Path` | `src/path.rs`: `sanitize_file_name` |
| `canvas_api.dfy` | `CanvasApi` | `src/canvas_api/mod.rs`: `build_url`, the `Link` header parser, and the paging loop that every listing shares |
| `canvas_files.dfy` | `CanvasFiles` | `src/canvas_api/files.rs`: folder and file listings, `get_course_file` |
| `canvas_modules.dfy` | `CanvasModules` | `src/canvas_api/modules.rs`: module and module-item listings |
| `lib.dfy` | `CanvasLmsSync` | `src/lib.rs`: `File`, `set_folder_path`, `local_path`, `local_file_matches`, the conversions |
| `sync.dfy` | `Sync` | `src/sync.rs`: `IndentStack`, `download_files`, `download_modules` |
| `cli_sync.dfy` | `CliSync` | `src/bin/canvas-sync/main.rs`: the older planners of the command-line tool |

How the model is built:

- **The server.** Each endpoint is a function from a request URL to one
  decoded page: its records and its raw `Link` header, or an error.
  `CanvasApi.FetchAll` is the `while let Some(url) = next` loop. Its result
  is the specification function `CanvasApi.Stream`: every record of every
  page in order, and then the error, if a request failed. A request error
  (`?` inside `stream!`) is yielded as the stream's last item.
- **Termination.** A server whose `next` links form a cycle would make the
  loop run forever. The ghost predicate `Finite` (some page count reaches the
  end) is therefore required. Likewise `ChainEnds` is required of
  `set_folder_path`'s upward walk through `parent_folder_id`.
- **The filesystem.** The local disk is a map from a path, seen as the list
  of components pushed onto a `PathBuf`, to the byte length of what exists
  there. A run treats it as fixed.
- **The sinks.** The download engine is a `Downloader` class whose `queue`
  records every submitted `DownloadTask`. `write_url_file` is a
  `UrlFileWriter` class. It records every call, and a function parameter
  says whether the call succeeds.
- **Panics.** `unwrap` and `expect` in the planners abort the sync. The
  model returns a `Panic` value saying which one fired. Processing stops
  there, and the download tasks already queued and links already written stay.
  Errors from the listings are only logged in the source, so such an item
  is skipped. The unwraps in `build_url` become the preconditions `HostOk`
  (host ends in `/`) and `PathOk` (path starts with `/`).
- **The planners.** Each planner is first a `method` over the classes, as
  the source runs it. Its `ensures` ties the final queue, the links written
  and the panic to a ghost fold over the listed items (`Sync.FilesRun`,
  `Sync.CourseRun`). The lemmas are proved about that fold.
- **The two `IndentStack`s.** `src/sync.rs` and
  `src/bin/canvas-sync/main.rs` both declare their own `IndentStack` type with the
  same code. Both are modelled by `Sync.IndentStack`.

Properties the model makes precise:

- **Files mode is idempotent unless sanitised names collide.** Run files
  mode once, and write each of its tasks to its path at the file's size
  (`Sync.Downloaded`). A second run over the same listing then submits
  nothing. This holds whenever listed files that end up at the same local
  path also have the same size (`Sync.SecondRunSubmitsNothing`). It fails
  otherwise. `a:b` and `a?b` in one folder are both stored as `a_b`. If
  their sizes differ, whichever is on disk does not match the other, and one
  of them is fetched again on every run (`Sync.CollidingNamesRedownload`).
- **Files mode is the reference query "every listed file whose local copy
  does not match".** `Sync.FilesRunIsMissing` proves this.
- **Sub-headers nest by indent.** `Sync.HeadingExample` shows this, and
  `Sync.ModuleRunIncreasing` keeps the stack strictly increasing. Sub-header
  nesting never carries from one module to the next
  (`Sync.CourseRunNextModule`).
- **The two modes use different roots.** Module-mode download paths are
  relative (`Modules/<module>/…`), not under the configured `path`. The link
  shortcuts are under the configured `path`. `Sync.CourseRunShape` states
  both shapes.
- **How the older planners relate.** The planners of the command-line tool
  do not fill in a missing download URL, and they ignore external items.
  Otherwise they agree with the library's (`CliSync.FilesPlannersAgree`,
  `CliSync.ModulePlannersAgree`). Where a file has no URL, the tool queues
  the empty URL (`CliSync.EmptyUrlSubmitted`).

A folder id missing from the folder map is a panic: `set_folder_path` unwraps
the lookup (`src/lib.rs:37`). `CanvasLmsSync.File.SetFolderPath`
reports this as `found == false`, and the planners stop with
`Panic.MissingFolder`.

## Model

| member | source | states |
|---|---|---|
| Path.Replace | src/path.rs:3 | one `str::replace` of a single character: same length; each occurrence of `from` becomes `to`, every other character is kept |
| Path.SanitizeFileName | src/path.rs:1-12 | same length; each of the nine characters `/ \ : * ? " < > \|` becomes `_`, every other character is kept |
| Path.SanitizedIsClean | src/path.rs:1-12 | the result holds none of the nine forbidden characters |
| Path.SanitizeKeepsCleanName | src/path.rs:1-12 | a name without forbidden characters is returned unchanged |
| Path.SanitizeIdempotent | src/path.rs:1-12 | sanitising twice equals sanitising once |
| Path.SanitizeAll | src/lib.rs:62-67 | one sanitised name per folder name, in order |
| CanvasApi.BuildUrl | src/canvas_api/mod.rs:78-84 | the result is the host followed by the path with the duplicated `/` dropped: it starts with the host, ends with the path, and is one shorter than both together; the host must end in `/` and the path start with `/` (the two unwraps) |
| CanvasApi.Decimal | src/canvas_api/files.rs:61 | definition: `format!("{}", n)` of an integer, as used in every request URL: `-` before a negative number, then the decimal digits |
| CanvasApi.Digits | src/canvas_api/files.rs:61 | definition: the decimal digits of a natural number, most significant first, without leading zeros |
| CanvasApi.DigitChar | src/canvas_api/files.rs:61 | definition: the character `0`…`9` of one decimal digit |
| CanvasApi.ApplyLink | src/canvas_api/mod.rs:47-57 | definition: the fold step: relation `current`, `first` or `last` sets that field to the URL, `prev` or `next` sets it to `Some(url)`, any other relation leaves the accumulator as it is |
| CanvasApi.FoldLinks | src/canvas_api/mod.rs:37-58 | definition: `ApplyLink` folded over the captures, left to right |
| CanvasApi.RelMatch | src/canvas_api/mod.rs:35 | definition: group 2 and the closing `"`: the shortest non-empty text without a newline that is followed by `"`; gives the name and the text after the quote |
| CanvasApi.CloseAt | src/canvas_api/mod.rs:35 | definition: `>; rel="` follows at position `j` of the text after `<`, and group 2 matches after it |
| CanvasApi.UrlEndFrom | src/canvas_api/mod.rs:35 | definition: the end of group 1, searched from `j` on: the first position where the rest of the pattern matches, with no newline before it; a position it returns is one where the rest matches |
| CanvasApi.LinkMatch | src/canvas_api/mod.rs:35-38 | definition: the whole pattern after its `<`: the capture (URL, relation) and the text after the match, which is shorter than the text matched against |
| CanvasApi.Captures | src/canvas_api/mod.rs:35-38 | definition: `captures_iter`: the match at the leftmost position where one starts, then the search continues after it |
| CanvasApi.PaginationFromHeader | src/canvas_api/mod.rs:33-60 | definition: `FoldLinks` over the header's captures, starting from empty `current`, `first` and `last` and absent `prev` and `next` |
| CanvasApi.QuoteIndex | src/canvas_api/mod.rs:35 | finds the first `"` before any newline, or reports that every `"` comes after a newline (the lazy `.+?"` of the regex) |
| CanvasApi.FoldLinksAppend | src/canvas_api/mod.rs:39-58 | folding over two runs of captures is folding over the first, then the second |
| CanvasApi.FoldLinksFields | src/canvas_api/mod.rs:47-57 | each of the five fields holds the URL of the last capture whose relation names it; a field no capture names keeps its initial value |
| CanvasApi.LastWithIsLast | src/canvas_api/mod.rs:47-57 | the reference "last capture with relation `rel`" is `Some(url)` exactly when some capture is `(url, rel)` and none after it names `rel` |
| CanvasApi.LastWithAbsent | src/canvas_api/mod.rs:47-57 | it is `None` exactly when no capture names `rel` |
| CanvasApi.UnknownRelIgnored | src/canvas_api/mod.rs:54 | a capture whose relation is none of the five names can be removed without changing the result |
| CanvasApi.RelMatchOfRel | src/canvas_api/mod.rs:35 | the lazy second group stops at the first `"`, which gives back exactly the relation name |
| CanvasApi.LinkMatchOfText | src/canvas_api/mod.rs:35-38 | on the text of one `<url>; rel="name"` element the regex captures exactly that URL and that name, and continues right after the element |
| CanvasApi.CapturesOfHeader | src/canvas_api/mod.rs:35-38 | on a header of well-formed elements with any text without `<` before, between and after them (`, `, `,`, a comma with line breaks), `captures_iter` returns exactly those (URL, relation) pairs in order |
| CanvasApi.CapturesSkipSeparator | src/canvas_api/mod.rs:35-38 | text without `<` starts no match, so the scan passes over it |
| CanvasApi.HeaderFields | src/canvas_api/mod.rs:33-60 | parsing such a header, with any separators: `prev` and `next` are the last URL of their relation or `None`; `current`, `first` and `last` are the last URL of theirs or empty |
| CanvasApi.NextPrevHeader | src/canvas_api/mod.rs:33-60 | `<A>; rel="next", <B>; rel="prev"` gives `next == Some(A)`, `prev == Some(B)`, and leaves the other fields empty |
| CanvasApi.NextOnlyHeader | src/canvas_api/mod.rs:33-60 | a header naming only `next` yields that URL as `next` |
| CanvasApi.NextUrl | src/canvas_api/files.rs:67 | definition: `pagination.and_then(\|p\| p.next)`: no `Link` header gives no next URL, otherwise the parsed header's `next` |
| CanvasApi.Listing | src/canvas_api/files.rs:63-71 | definition: the items from `url` on, within a page bound: a failed request yields its error alone; otherwise the page's records, then the listing at `next` if there is one |
| CanvasApi.Stream | src/canvas_api/files.rs:63-71 | definition: `Listing` under any page bound within which the `next` chain ends |
| CanvasApi.Oks | src/canvas_api/files.rs:68-70 | each record of a page is yielded as one success item, in order |
| CanvasApi.ListingFuel | src/canvas_api/files.rs:63-71 | the items listed do not depend on the page bound used to show the requests end |
| CanvasApi.YieldPage | src/canvas_api/files.rs:68-70 | the items yielded so far are followed by one success per record of the page, in order |
| CanvasApi.FetchAll | src/canvas_api/files.rs:63-71 | the paging loop returns exactly `Stream`: every page's records in order, following `next` until it is absent or a request fails |
| CanvasApi.StreamUnfold | src/canvas_api/files.rs:63-71 | a failed request yields that error alone; a page with no `next` yields its records; otherwise its records, then the listing at `next` |
| CanvasApi.ListingErrorOnlyLast | src/canvas_api/files.rs:66 | within any page bound, only the last item can be an error: `?` ends the stream |
| CanvasApi.StreamErrorOnlyLast | src/canvas_api/files.rs:66 | every item of a listing but the last is a success |
| CanvasApi.ChainedPages | src/canvas_api/files.rs:63-71 | three successful pages linked by `next`, the third without one, list their six records in page order |
| CanvasApi.ThreePages | src/canvas_api/files.rs:63-71 | three pages of two records, chained by `next` (the last one naming only `prev`), list all six records in order |
| CanvasFiles.FoldersUrl | src/canvas_api/files.rs:61 | definition: `build_url` of `/api/v1/courses/{id}/folders` |
| CanvasFiles.FilesUrl | src/canvas_api/files.rs:75 | definition: `build_url` of `/api/v1/courses/{id}/files` |
| CanvasFiles.CourseFileUrl | src/canvas_api/files.rs:89 | definition: `build_url` of `/api/v1/courses/{id}/files/{fileid}` |
| CanvasFiles.GetAllFolders | src/canvas_api/files.rs:57-73 | the folders are the listing that starts at `…/api/v1/courses/{id}/folders` |
| CanvasFiles.GetAllFiles | src/canvas_api/files.rs:74-87 | the files are the listing that starts at `…/api/v1/courses/{id}/files` |
| CanvasFiles.GetCourseFile | src/canvas_api/files.rs:88-94 | one request to `…/files/{fileid}`: its body when it succeeds, its error otherwise |
| CanvasFiles.CourseFileIgnoresLink | src/canvas_api/files.rs:91 | the answer does not depend on the response's pagination header |
| CanvasFiles.FoldersUrlShape | src/canvas_api/files.rs:61 | the folder listing starts at the host followed by `api/v1/courses/{id}/folders` |
| CanvasFiles.FilesUrlShape | src/canvas_api/files.rs:75 | the file listing starts at the host followed by `api/v1/courses/{id}/files` |
| CanvasFiles.CourseFileUrlShape | src/canvas_api/files.rs:89 | the single-file request goes to the host followed by `api/v1/courses/{id}/files/{fileid}` |
| CanvasModules.ModulesUrl | src/canvas_api/modules.rs:43 | definition: `build_url` of `/api/v1/courses/{id}/modules` |
| CanvasModules.ItemsUrl | src/canvas_api/modules.rs:63-66 | definition: `build_url` of `/api/v1/courses/{c}/modules/{m}/items` |
| CanvasModules.ModulesUrlShape | src/canvas_api/modules.rs:43 | the module listing starts at the host followed by `api/v1/courses/{id}/modules` |
| CanvasModules.ItemsUrlShape | src/canvas_api/modules.rs:63-66 | the item listing starts at the host followed by `api/v1/courses/{c}/modules/{m}/items` |
| CanvasModules.ListModules | src/canvas_api/modules.rs:39-57 | the modules are the listing that starts at the module URL |
| CanvasModules.ListModuleItems | src/canvas_api/modules.rs:58-80 | the items are the listing that starts at the item URL |
| CanvasLmsSync.AsU64 | src/lib.rs:49 | `size as u64`: below 2^64; a non-negative size is unchanged; a negative one wraps to at least 2^63 |
| CanvasLmsSync.ParentId | src/lib.rs:39 | definition: `parent_folder_id.unwrap_or(0)` |
| CanvasLmsSync.ChainWithin | src/lib.rs:35-41 | definition: the walk up from `id` within a step bound: 0 gives the empty path, an id missing from the map gives `None` (the unwrap), otherwise the parent's path followed by this folder's name |
| CanvasLmsSync.FolderChain | src/lib.rs:33-42 | definition: `ChainWithin` under any step bound within which the walk ends |
| CanvasLmsSync.ChainFuel | src/lib.rs:36-40 | the folder chain does not depend on the step bound used to show the walk ends |
| CanvasLmsSync.FolderChainIs | src/lib.rs:36-40 | the folder chain is the bounded walk for any bound it ends within |
| CanvasLmsSync.FolderChainStep | src/lib.rs:33-42 | folder 0 gives the empty path; an id missing from the map fails; otherwise the path is the parent's path followed by this folder's name, root first |
| CanvasLmsSync.RootFolder | src/lib.rs:36-39 | a folder without a parent resolves to its own name alone |
| CanvasLmsSync.Reversed | src/lib.rs:41 | `reverse`: same length; element `i` is element `n-1-i` of the input |
| CanvasLmsSync.ExtendStep | src/lib.rs:36-41 | one turn of the walk moves the folder's name from the walk still to come into the names collected |
| CanvasLmsSync.LocalPathOf | src/lib.rs:54-61 | the local path's components are the sanitised folder names in order, then the sanitised file name |
| CanvasLmsSync.LocalPathClean | src/lib.rs:54-70 | no component of a local path contains a forbidden character, so none adds a directory level |
| CanvasLmsSync.Matches | src/lib.rs:43-53 | definition: the skip rule: something exists at the path and its length equals `size as u64` |
| CanvasLmsSync.MatchesNonNegative | src/lib.rs:43-53 | for a non-negative size the skip rule is "exists and has length `size`" |
| CanvasLmsSync.MatchesNegative | src/lib.rs:49 | a negative size never matches a file shorter than 2^63 bytes |
| CanvasLmsSync.File.FromResp | src/lib.rs:73-85 | the folder path is empty; name, size and URL are copied from the response |
| CanvasLmsSync.File.SetFolderPath | src/lib.rs:33-42 | succeeds exactly when the chain resolves, and then the folder path is the chain, root first; fails where the unwrap panics; name, size and URL unchanged |
| CanvasLmsSync.File.SanitizedFolderPath | src/lib.rs:62-67 | one name per folder name, each `sanitize_file_name` of it: clean, and unchanged when already clean |
| CanvasLmsSync.File.SanitizedFileName | src/lib.rs:68-70 | the display name with each forbidden character replaced by `_` and every other character kept: clean, and unchanged when already clean |
| CanvasLmsSync.File.LocalPath | src/lib.rs:54-61 | pushes each sanitised folder name and then the sanitised file name, giving `LocalPathOf` |
| CanvasLmsSync.File.LocalFileMatches | src/lib.rs:43-53 | true exactly when something exists at the local path and its length equals `size as u64` |
| CanvasLmsSync.File.IntoTask | src/lib.rs:23-30 | the download task carries the file's URL and its local path |
| CanvasLmsSync.ReportExample | src/lib.rs:33-70 | a file named `stem:ext` nested three folders deep resolves to `[f1, f2, f3]` and is stored as `f1/f2/f3/stem_ext` |
| Sync.KeepBelow | src/sync.rs:22 | definition: `retain(\|(i, _)\| *i < indent)`: the entries whose indent is below the new one, in order; never more than there were |
| Sync.Pushed | src/sync.rs:21-24 | definition: the stack after `add`: the retained entries, then `(indent, item)` |
| Sync.KeepBelowMembers | src/sync.rs:22 | `retain`: every kept entry was on the stack with an indent below the new one, and every such entry is kept |
| Sync.Items | src/sync.rs:25-27 | the items of the stack, in order, without their indents |
| Sync.KeepBelowNone | src/sync.rs:22 | with no entry below the new indent, nothing is kept |
| Sync.KeepBelowIsPrefix | src/sync.rs:21-24 | on a strictly increasing stack, what is kept is a prefix, and every dropped entry is at or above the new indent |
| Sync.PushedIncreasing | src/sync.rs:21-24 | pushing onto a strictly increasing stack keeps it strictly increasing |
| Sync.StackExample | src/sync.rs:21-27 | adding at indents 1, 2, 2 and then 1 gives the items `[a]`, `[a, b]`, `[a, c]` and then `[d]` |
| Sync.IndentStack.constructor | src/sync.rs:18-20 | the stack is empty |
| Sync.IndentStack.Add | src/sync.rs:21-24 | the new stack is the retained entries followed by `(indent, item)`, and it stays strictly increasing |
| Sync.IndentStack.Get | src/sync.rs:25-27 | one item per entry, in order |
| Sync.Downloader.Submit | src/sync.rs:93 | the download task is appended to the queue |
| Sync.UrlFileWriter.Write | src/sync.rs:101-106 | the call is recorded, and whether it succeeded is reported |
| Sync.DownloadUrl | src/sync.rs:150-156 | definition: the guessed URL `build_url("/files/{id}/download?download_frd=1&verifier={uuid}")` |
| Sync.WithUrl | src/sync.rs:145-157 | definition: a file listed with an empty URL gets `DownloadUrl`; any other file is unchanged |
| Sync.WithUrlFacts | src/sync.rs:145-157 | after the fix-up the URL is never empty: a present URL is kept, an empty one becomes `…/files/{id}/download?download_frd=1&verifier={uuid}` under the host |
| Sync.FolderMapOf | src/sync.rs:124-138 | definition: every successfully listed folder inserted under its id, in listing order; a listing error inserts nothing |
| Sync.FolderMapOfLast | src/sync.rs:124-138 | an id is in the folder map exactly when some listed folder has it, and it maps to the last such folder |
| Sync.BuildFolderMap | src/sync.rs:124-138 | inserting every successfully listed folder gives `FolderMapOf` |
| Sync.FilesStep | src/sync.rs:143-170 | definition: one file-listing item: nothing after a panic or for an error; otherwise fix up the URL, resolve the folder chain (a missing folder is the panic), and append the task unless the local copy matches |
| Sync.FilesRun | src/sync.rs:140-172 | definition: `FilesStep` over the file listing in order, from no tasks and no panic |
| Sync.FilesRunSnoc | src/sync.rs:140-172 | the run over one more file is one more step |
| Sync.FilesRunAfterPanic | src/sync.rs:158-160 | once a panic has happened, later files change nothing |
| Sync.FilesStepAppends | src/sync.rs:141-170 | a step from a state without a panic appends exactly the download tasks it produces from an empty state, and gives the same panic |
| Sync.DownloadFile | src/sync.rs:144-168 | submits the file unless its local copy matches; reports a missing folder as the panic |
| Sync.DownloadListedFiles | src/sync.rs:140-172 | the queue grows by exactly the download tasks of `FilesRun`, and the panic is that of `FilesRun` |
| Sync.DownloadFiles | src/sync.rs:123-173 | the same over the listings fetched from the server, with the folder map built from the folder listing |
| Sync.FileCandidates | src/sync.rs:143-161 | definition: the task and size of each listed file, before the skip rule, up to the first missing folder, which is the panic |
| Sync.Missing | src/sync.rs:162-167 | the candidates that are not skipped: never more than there are |
| Sync.Tasks | src/sync.rs:167 | the download tasks of the candidates, in order |
| Sync.FilesRunIsMissing | src/sync.rs:140-172 | files mode equals the reference: the listed files whose local copy does not match, in order, with the same panic |
| Sync.MissingNone | src/sync.rs:162-165 | when every candidate matches, nothing is submitted |
| Sync.MissingAll | src/sync.rs:162-167 | when no candidate's path exists, every one is submitted |
| Sync.MatchingRunSubmitsNothing | src/sync.rs:162-165 | on a disk where every candidate of the listing matches, a run submits nothing and keeps the panic of the candidates |
| Sync.Unmatched | src/sync.rs:162-165 | the candidates whose local copy does not match, in order: never more than there are |
| Sync.MissingIsUnmatched | src/sync.rs:162-167 | the tasks submitted are exactly the tasks of the unmatched candidates |
| Sync.TasksAppend | src/sync.rs:167 | the tasks of two runs of candidates are those of the first, then those of the second |
| Sync.UnmatchedMembers | src/sync.rs:162-165 | every unmatched candidate is a candidate, and every candidate that does not match is among them |
| Sync.Downloaded | src/sync.rs:167 | definition: the disk after each submitted task has been written to its path, at the file's `size as u64`, in submission order |
| Sync.WrittenTo | src/sync.rs:167 | definition: some submitted task writes to the path |
| Sync.DownloadedAt | src/sync.rs:167 | a path no task writes keeps what the disk had there, present or absent; a path some task writes holds that task's file size |
| Sync.SizesAgree | src/lib.rs:49 | definition: candidates that share a local path have the same size as `u64` |
| Sync.DownloadsMatch | src/sync.rs:162-167 | when colliding candidates agree on size, every candidate matches the disk after the unmatched ones are downloaded |
| Sync.SecondRunSubmitsNothing | src/sync.rs:140-172 | the first run submits the tasks of the unmatched candidates; after those are downloaded, and when colliding candidates agree on size, a second run over the same listing submits nothing and ends with the same panic |
| Sync.ColonAndQuestionMarkCollide | src/path.rs:5-7 | `a:b` and `a?b` sanitise to the same name, `a_b` |
| Sync.CollidingCandidates | src/sync.rs:143-161 | two root-folder files named `a:b` and `a?b` give two candidates with the same path `[a_b]` |
| Sync.CollidingRun | src/sync.rs:162-167 | for those two files, a run submits each one whose size does not match what is at `a_b` |
| Sync.MissingOfTwo | src/sync.rs:162-167 | for two candidates, the tasks submitted are those of each one that does not match, in order |
| Sync.CollidingNamesRedownload | src/sync.rs:140-172 | with sizes 1 and 2, the two colliding candidates do not agree on size; an empty disk gets both tasks; 2 bytes at `a_b` get the first file's task and 1 byte the second's, so whichever file the downloads leave there, the other is fetched again |
| Sync.FreshRunSubmitsAll | src/sync.rs:162-167 | on a disk holding none of the paths, every listed file is submitted |
| Sync.Titles | src/sync.rs:85 | the titles of the enclosing sub-headers, in order |
| Sync.ModuleFolder | src/sync.rs:77-86 | definition: the folder of a `File` item: `Modules`, the module's name, then the titles of the stacked sub-headers |
| Sync.LinkCall | src/sync.rs:96-106 | definition: the `write_url_file` call: the URL, the title, and `<path>/Modules/<sanitised module>/<sanitised title>` |
| Sync.FileTask | src/sync.rs:60-93 | definition: the download task of a fetched file after the URL fix-up, at the local path for its folder |
| Sync.Submission | src/sync.rs:88-93 | definition: that task, or nothing when the local copy matches |
| Sync.ItemEffect | src/sync.rs:48-110 | definition: what one item does to the stack, the tasks, the links and the panic: `SubHeader` pushes, `File` is `FileEffect`, `ExternalUrl` and `ExternalTool` are `LinkEffect`, any other kind nothing |
| Sync.ItemStep | src/sync.rs:45-113 | definition: one item-listing item: nothing after a panic or for an error; otherwise the item's effect appended to the state |
| Sync.ModuleRun | src/sync.rs:42-115 | definition: `ItemStep` over a module's item listing in order |
| Sync.CourseRun | src/sync.rs:36-120 | definition: each listed module's `ModuleRun` in turn, each from an empty stack, stopping at the first panic; a listing error is skipped |
| Sync.FileEffect | src/sync.rs:52-94 | a `File` item writes no link, keeps the stack and submits at most one task |
| Sync.LinkEffect | src/sync.rs:95-108 | an external item submits nothing, keeps the stack and writes at most one link |
| Sync.ItemStepOk | src/sync.rs:45-113 | before any panic, an item appends its own effect to the state |
| Sync.ModuleRunSnoc | src/sync.rs:44-114 | the run over one more item is one more step |
| Sync.CourseRunSnoc | src/sync.rs:36-120 | the run over one more module is one more module run, starting from an empty stack |
| Sync.ModuleRunAfterPanic | src/sync.rs:56-59 | once an item has panicked, later items change nothing |
| Sync.CourseRunAfterPanic | src/sync.rs:56-59 | once a module has panicked, later modules change nothing |
| Sync.ModuleRunAppends | src/sync.rs:39-115 | a module run from any state, with no panic yet, appends exactly what the same run from an empty state produces |
| Sync.ModulesDirClean | src/sync.rs:78 | `Modules` contains no forbidden character, so it is stored as written |
| Sync.EffectShape | src/sync.rs:45-113 | a file task is stored under `Modules/<module>/…`, and a link under `<path>/Modules/<module>/<title>` |
| Sync.ModuleRunShape | src/sync.rs:39-115 | a module run only appends, and every task and link it adds has that shape |
| Sync.CourseRunShape | src/sync.rs:35-121 | every task of module mode is relative, under `Modules/…`; every link is under the configured path |
| Sync.ModuleRunIncreasing | src/sync.rs:49-51 | the sub-header stack stays strictly increasing by indent |
| Sync.CourseRunNextModule | src/sync.rs:39 | a module appends exactly its own run from a fresh stack: no sub-header of an earlier module encloses its files |
| Sync.FourFolderPath | src/lib.rs:54-61 | the local path of a four-folder file, component by component |
| Sync.HeadingsRun | src/sync.rs:49-51 | three sub-headers in a row queue nothing, write no link and only push onto the indent stack |
| Sync.ThreeHeadings | src/sync.rs:49-51 | sub-headers at indents 1, 2, 2 leave the first and the third on the stack |
| Sync.HeadingExample | src/sync.rs:49-93 | a file after those sub-headers is submitted to `Modules/<module>/<h1>/<h3>/<name>` |
| Sync.SubmitFile | src/sync.rs:88-93 | the queue grows by the file's task, or by nothing when the local copy matches |
| Sync.DownloadFileItem | src/sync.rs:52-94 | a `File` item: its task is queued, or the run stops on a missing content id or a failed request, as `FileEffect` says |
| Sync.WriteLinkItem | src/sync.rs:95-108 | an external item with a URL writes one link; a failed write is the panic, as `LinkEffect` says |
| Sync.DownloadItem | src/sync.rs:45-113 | one item changes the stack, the queue, the links and the panic as `ItemEffect` says |
| Sync.DownloadModule | src/sync.rs:39-118 | the queue and the links of one module grow by what `ModuleRun` from an empty stack produces |
| Sync.DownloadModules | src/sync.rs:35-121 | over all modules, the queue, the links and the panic equal those of `CourseRun` |
| CliSync.FilesStep | src/bin/canvas-sync/main.rs:122-135 | definition: one file-listing item of the tool: as the library's step but with the URL as listed |
| CliSync.FilesRun | src/bin/canvas-sync/main.rs:119-138 | definition: the tool's `FilesStep` over the file listing in order |
| CliSync.FilesRunSnoc | src/bin/canvas-sync/main.rs:119-138 | the run over one more file is one more step |
| CliSync.FilesRunAfterPanic | src/bin/canvas-sync/main.rs:126 | once a folder has been missing, later files change nothing |
| CliSync.DownloadFile | src/bin/canvas-sync/main.rs:123-134 | submits the file with the URL as listed, unless its local copy matches |
| CliSync.DownloadListedFiles | src/bin/canvas-sync/main.rs:119-138 | the queue grows by exactly the download tasks of the command-line `FilesRun` |
| CliSync.DownloadFiles | src/bin/canvas-sync/main.rs:102-139 | the same over the listings fetched from the server |
| CliSync.FilesPlannersAgree | src/bin/canvas-sync/main.rs:102-139 | when every listed file has a URL, the tool's files mode equals the library's |
| CliSync.EmptyUrlSubmitted | src/bin/canvas-sync/main.rs:133 | for a file without a URL, the tool queues the empty URL, where the library queues the fixed-up one |
| CliSync.FileEffect | src/bin/canvas-sync/main.rs:59-87 | a `File` item writes no link, keeps the stack and submits at most one task |
| CliSync.ItemEffect | src/bin/canvas-sync/main.rs:55-89 | definition: `SubHeader` pushes, `File` is the tool's `FileEffect`, every other kind does nothing |
| CliSync.ItemStep | src/bin/canvas-sync/main.rs:52-92 | definition: one item-listing item: nothing after a panic or for an error; otherwise the item's effect appended |
| CliSync.ModuleRun | src/bin/canvas-sync/main.rs:49-94 | definition: the tool's `ItemStep` over a module's item listing in order |
| CliSync.CourseRun | src/bin/canvas-sync/main.rs:43-98 | definition: each listed module's `ModuleRun` in turn, from an empty stack, stopping at the first panic |
| CliSync.ModuleRunSnoc | src/bin/canvas-sync/main.rs:51-94 | the run over one more item is one more step |
| CliSync.CourseRunSnoc | src/bin/canvas-sync/main.rs:43-98 | the run over one more module is one more module run, starting from an empty stack |
| CliSync.ModuleRunAfterPanic | src/bin/canvas-sync/main.rs:63-66 | once an item has panicked, later items change nothing |
| CliSync.CourseRunAfterPanic | src/bin/canvas-sync/main.rs:63-66 | once a module has panicked, later modules change nothing |
| CliSync.ItemStepOk | src/bin/canvas-sync/main.rs:53-90 | before any panic, an item appends its own effect to the state |
| CliSync.ModuleRunAppends | src/bin/canvas-sync/main.rs:46-94 | a module run with no panic yet appends exactly what the same run from an empty state produces |
| CliSync.ModuleRunNoLinks | src/bin/canvas-sync/main.rs:88 | the tool writes no link shortcuts |
| CliSync.ItemEffectsAgree | src/bin/canvas-sync/main.rs:53-90 | on an item that is no external link with a URL, and whose file already has a URL, the tool's effect equals the library's |
| CliSync.ModulePlannersAgree | src/bin/canvas-sync/main.rs:42-100 | on modules with no external link items and files that all have URLs, the tool's module run equals the library's |
| CliSync.DownloadItem | src/bin/canvas-sync/main.rs:53-90 | one item changes the stack, the queue and the panic as the tool's `ItemEffect` says |
| CliSync.SubmitAsListed | src/bin/canvas-sync/main.rs:81-86 | the file's task, with its URL as listed, is queued unless its local copy matches |
| CliSync.DownloadModule | src/bin/canvas-sync/main.rs:46-97 | the queue of one module grows by what the tool's `ModuleRun` from an empty stack produces |
| CliSync.DownloadModules | src/bin/canvas-sync/main.rs:42-100 | over all modules, the queue and the panic equal those of the tool's `CourseRun` |

## Left out

- The download engine (`src/download.rs`): its worker concurrency, backpressure, draining and progress reporting. Only the queue of submitted tasks is modelled.
- The HTTP transport of `make_json_request`: `reqwest`, bearer authentication, status codes and JSON decoding. Every endpoint is an abstract function from URL to a decoded page or an error.
- `write_url_file`'s own work (the shortcut file's format and the filesystem writes). A function parameter decides whether it succeeds.
- CanvasApi.PaginationFromHeader: the `to_str().unwrap()` on the header value (`src/canvas_api/mod.rs:37`) is not modelled. `to_str` accepts only tab and visible ASCII (0x20 to 0x7E), so a `Link` header holding any other character, such as `<é>; rel="next"`, makes the source panic and end the run. The model parses such a header like any other and keeps paging.
- The `to_str().expect("Invalid path")` on the link folder is not modelled. Local paths in the model are strings, which are always valid, so it cannot fail.
- CanvasApi.BuildUrl: requires `HostOk` (the host ends in `/`) and `PathOk` (the path starts with `/`) instead of modelling the two `unwrap`s of `build_url` (`src/canvas_api/mod.rs:81-82`). Every planner method (Sync.DownloadFiles, Sync.DownloadModules, CliSync.DownloadFiles, CliSync.DownloadModules) therefore requires `HostOk`. A host configured without a trailing `/` panics at the first request of every run in the source, and the model does not describe that run. Every path the source passes begins with `/`.
- The metadata error path of `local_file_matches` is not modelled. The filesystem map gives a length for every path it holds, so reading the length never fails, and `unwrap_or(false)` never sees an error.
- `PathBuf` normalisation: empty components, `..` and absolute components are kept as components and not interpreted.
- The timestamps (`created_at`, `updated_at` and `modified_at`) and every JSON field the sync logic never reads.
- CanvasFiles.FileResp: `id` and the other ids are unbounded integers. Only `size` is an `i64`, because only its `as u64` cast changes behaviour.
- The streams are lazy and interleave requests with writes to the disk. The model fetches each listing whole and treats the filesystem as fixed during a run.
- Sync.DownloadFiles: requires that the `next` chains of both listings end, and that every listed file's parent chain ends. The source loops forever on a cycle it reaches. The requirement also covers files, and file pages, after a missing-folder panic, which the source never reaches; a run whose only cycle lies there ends in the source but is not described by the model.
- Sync.DownloadModules: requires that the module list and every module's item list end. The source loops forever on a cyclic `next` chain it reaches. The requirement also covers the modules after a panic, and the remaining item pages of the module that panicked and the remaining module pages, none of which the source fetches; a run whose only cycle lies there ends in the source but is not described by the model.
- CliSync.DownloadFiles: the same requirement as Sync.DownloadFiles, with the same runs after a panic left undescribed.
- CliSync.DownloadModules: the same requirement as Sync.DownloadModules, covering the modules after a panic and the remaining item and module pages after it, with those runs left undescribed.
- Sync.SecondRunSubmitsNothing: requires that listed files stored at the same local path have the same size. Sanitising can map two names to one path, and then the claim is false: `Sync.CollidingNamesRedownload` shows one of the two files fetched again on every run. `Sync.Downloaded` also writes the files in submission order, where the download engine runs them concurrently; when sizes agree, the order does not change the disk.
- Listing errors and item errors are only logged by the source, and the log is not modelled (`log`, `error!`, `warn!`, `debug!`).
- The GUI (`src/bin/canvas-sync-gui`), its logger, `src/defer.rs`, the YAML configuration loading and `main` of the command-line tool, and the progress ticker.
