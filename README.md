# crabberbot core, modelled in Dafny

crabberbot is a Telegram bot that takes a link posted in a chat, downloads the
media behind it with yt-dlp and sends it back. This project models the
sequential logic of five of its source files and proves properties of it:

- `validator.dfy` (module `Validator`): the metadata validation rule. A playlist
  is limited to 5 entries when its first entry is typed `"video"` and to 10
  otherwise. A single item is limited to 1800 s and 500 MiB. Missing values
  never fail. Each failure carries the observed value and the limit.
- `downloader.dfy` (module `Downloader`): what `download_media` does with
  yt-dlp's output. It splits standard output into lines with the semantics of
  Rust's `str::lines`, skips blank and unparseable lines, and keeps every
  parsed item in order. It builds the HTML caption from the first item only,
  cuts it to 1024 characters, and reports `ParsingFailed` when nothing parses.
  Rust's `str::trim` is modelled with the Unicode White_Space set.
- `storage.dfy` (modules `Storage`, `StorageClient`): the cache tables as maps
  inside a `PostgresStorage` class. It models the media-type codec, the read
  path (rows with unknown types dropped; no usable file reads as a miss), the
  upsert that replaces a URL's whole file list with positions 0..n-1, and the
  audit log insert with its `i32` cast.
- `concurrency.dfy` (module `Concurrency`): the per-chat limiter as a class
  holding a set of chat ids. `TryLock` inserts when absent. A `LockGuard`
  object's `Drop` method is the release.
- `handler.dfy` (module `Handler`): `message_handler`. Its collaborators are
  observed as the trace of calls it makes: the http-prefix gate, the routing
  of each path by extension, and the single error message.
- `wrappers.dfy` (module `Wrappers`): `Option` and `Result`.

What the code does, which the model follows:
- The code truncates the whole caption to its first 1024 characters. It does
  not shorten only the quote or append an ellipsis.
- The code does not HTML-escape the uploader or the description. It uses the
  description only and never falls back to the title.
- The handler sends each file separately. It has no single/group split.
- The handler's only error text is "Sorry, I could not process that link: " followed by
  the error's display text.

## Model

| member | source | states |
|---|---|---|
| `Validator.PlaylistLimit` | src/validator.rs:23-32 | the limit is 5 exactly when the first entry is typed "video", 10 otherwise (empty or untyped first entry included) |
| `Validator.ValidateMediaMetadata` | src/validator.rs:21-59 | accepts exactly the inputs within limits. TooManyItems carries the entry count and its limit. TooLong only for a single item over 1800 s, carrying duration/60 and 30. TooLarge only for a single item within the duration limit but over 500 MiB, carrying bytes/1024/1024 and 500 |
| `Validator.PlaylistIgnoresParentLimits` | src/validator.rs:22-57 | for a playlist, changing the parent's duration and filesize never changes the verdict |
| `Validator.PlaylistVerdict` | src/validator.rs:22-39 | a playlist passes iff its length is at most 5 (first entry typed "video") or at most 10 (otherwise) |
| `Validator.DurationCheckedBeforeSize` | src/validator.rs:41-56 | an item breaching both limits is reported as TooLong |
| `Validator.DurationBoundary` | src/validator.rs:41-47 | exactly 1800 s passes (strict comparison); 3000 s gives TooLong(50, 30) |
| `Validator.FilesizeBoundary` | src/validator.rs:49-55 | exactly 500 MiB passes; one byte more gives TooLarge(500, 500) |
| `Validator.MissingOrSmallDataIsValid` | src/validator.rs:66-72 | no duration, size or entries is valid; so is 900 s with one byte under the size limit |
| `Validator.SixEntryPlaylists` | src/validator.rs:111-165 | six "video" entries give TooManyItems(6, 5); six untyped or six "image" entries pass |
| `Downloader.ErrorText` | src/downloader.rs:6-14 | each error's display text ends with the error's own message |
| `Downloader.TrimStart` | src/downloader.rs:104 | the result is a suffix of the input, starts with a non-white-space char or is empty, and only white space was removed |
| `Downloader.TrimEnd` | src/downloader.rs:104 | the result is a prefix of the input, ends with a non-white-space char or is empty, and only white space was removed |
| `Downloader.Trim` | src/downloader.rs:82 | the trimmed text is empty iff the line is all white space; otherwise it starts and ends with non-white-space |
| `Downloader.TrimIsSlice` | src/downloader.rs:104 | trim returns a slice of its input with only white space before and after it |
| `Downloader.LineEnd` | src/downloader.rs:81 | finds the first '\n', or the end of the text |
| `Downloader.Lines` | src/downloader.rs:81 | no line contains '\n'; empty text has no lines and non-empty text has at least one |
| `Downloader.LinesStep` | src/downloader.rs:81 | a '\n' ends the first line of the text; the line is what precedes it, less one '\r' just before the '\n'; the rest of the text is split likewise |
| `Downloader.LinesOfJoinWith` | src/downloader.rs:81 | splitting undoes a join whose separator, "\n" or "\r\n", ends each inner line, when no line has '\n' and the last is non-empty |
| `Downloader.LinesOfJoin` | src/downloader.rs:81 | splitting undoes joining with "\n" when no line has '\n', no inner line ends in '\r' and the last is non-empty |
| `Downloader.LinesOfCrlfJoin` | src/downloader.rs:81 | splitting undoes joining with "\r\n" when no line has '\n' and the last is non-empty: one '\r' before each '\n' is dropped, any other '\r' is kept |
| `Downloader.Header` | src/downloader.rs:90-95 | the header is never empty |
| `Downloader.QuoteParts` | src/downloader.rs:97-107 | "@uploader" present iff the uploader is present and non-empty, and it comes first. The trimmed description is present iff non-empty, and it comes last |
| `Downloader.Blockquote` | src/downloader.rs:109-117 | the laid-out caption starts with the header and is the bare header exactly when there are no quote parts |
| `Downloader.BlockquoteLayout` | src/downloader.rs:97-117 | over any header, the exact layout for each combination of a present uploader and a non-empty description |
| `Downloader.Caption` | src/downloader.rs:109-117 | the untruncated caption starts with the header, and equals it exactly when there is nothing to quote |
| `Downloader.CaptionLayout` | src/downloader.rs:97-117 | gives the exact caption in all four cases: header, blank line, `<blockquote>`, then "@uploader" and/or the trimmed description joined by "\n", then `</blockquote>`; with neither part, the bare header |
| `Downloader.Take` | src/downloader.rs:133 | the result has at most n characters, is a prefix of the input, and is all of it when it fits |
| `Downloader.ParsedItemsAppend` | src/downloader.rs:81-124 | the items of two consecutive runs of lines are the items of each run, concatenated |
| `Downloader.ParsedItemsStep` | src/downloader.rs:81-124 | one more line adds that line's item if it is non-blank and parses, and nothing otherwise |
| `Downloader.ParsedItemsSplit` | src/downloader.rs:81-124 | each line contributes its parsed item if it is non-blank and parses, and nothing otherwise, at its place in line order |
| `Downloader.BlankLineIsSkipped` | src/downloader.rs:82-84 | an all-white-space line contributes nothing |
| `Downloader.FirstItemIsFixed` | src/downloader.rs:88-118 | lines after the first parsed item never change the first item, so they never change the caption |
| `Downloader.BuildCaption` | src/downloader.rs:89-117 | the quote parts pushed step by step and joined give exactly the specified caption |
| `Downloader.ProcessLine` | src/downloader.rs:82-123 | one loop pass appends the line's item if it is kept, and sets the caption only while it is still empty |
| `Downloader.CollectItems` | src/downloader.rs:81-125 | the loop collects exactly the parsed items in line order; the caption is empty iff nothing parsed, and otherwise is the first item's caption |
| `Downloader.DownloadMedia` | src/downloader.rs:60-135 | a failed spawn or a non-zero exit gives CommandFailed. No parsed line gives ParsingFailed with the fixed message. Otherwise the result holds every parsed item and the first item's caption cut to 1024 chars, so the caption is at most 1024 chars |
| `Storage.MediaTypeToStr` | src/storage.rs:63-68 | encodes only to "video" or "photo" |
| `Storage.StrToMediaType` | src/storage.rs:70-76 | decodes exactly the strings "video" and "photo" |
| `Storage.MediaTypeRoundTrip` | src/storage.rs:63-76 | decode(encode(m)) == m; decode(s) == m implies encode(m) == s; all other strings decode to None |
| `Storage.DecodeRows` | src/storage.rs:116-125 | decodes nothing exactly when every row has an unknown type string, and never yields more files than rows |
| `Storage.DecodeRowsAppend` | src/storage.rs:116-125 | decoding two runs of rows is decoding each, concatenated, so order is kept |
| `Storage.RowsToCachedMedia` | src/storage.rs:112-131 | None exactly when no row decodes (including no rows). Otherwise the stored caption and the decoded files, which are never empty |
| `Storage.InsertedRows` | src/storage.rs:164-178 | rows carry positions within 0..n-1 in strictly increasing order |
| `Storage.InsertedRowsSnoc` | src/storage.rs:164-178 | with no failed insert, the last file's row, at its own position, comes after the rows of the files before it |
| `Storage.DecodeRowOf` | src/storage.rs:116-125 | the row written for a file decodes back to that file id and type |
| `Storage.DecodeInsertedRows` | src/storage.rs:116-178 | decoding the rows inserted for a file list, with no failed insert, gives back exactly those files and types, in order |
| `Storage.AsI32` | src/storage.rs:201 | the cast lands in the i32 range, agrees with the input modulo 2^32, and is the identity on values already in range |
| `Storage.StoredFilesReadBack` | src/storage.rs:112-178 | reading the rows stored for a non-empty file list returns that caption and those files in order |
| `Storage.PostgresStorage.constructor` | src/storage.rs:42-44 | stands for a store over a fresh, migrated database: all three tables are empty, and the table invariant holds |
| `Storage.PostgresStorage.GetCachedMedia` | src/storage.rs:80-132 | a miss (None) exactly when the URL has no cache row or none of its id's file rows decodes. A hit returns the row's caption and the decoded file rows of its id, which are never empty |
| `Storage.PostgresStorage.StoreCachedMedia` | src/storage.rs:134-185 | a failed upsert changes no table. Otherwise the URL keeps its id (or gets the next serial id) with the new caption, and its file rows are exactly the inserted rows. Every other URL reads as before. Reading the URL gives the caption and the newly inserted rows. The table invariant is kept |
| `Storage.PostgresStorage.ReplaceFileRows` | src/storage.rs:158-178 | the id's old rows are all deleted and replaced by the inserted rows; other ids are untouched |
| `Storage.PostgresStorage.LogRequest` | src/storage.rs:187-207 | appends one audit row with the time cast to i32, unless the insert fails; the cache tables are untouched |
| `StorageClient.StoreThenRead` | src/storage.rs:80-185 | a successful store of a non-empty list followed by a read of the same URL returns that caption and those files |
| `Concurrency.ConcurrencyLimiter.constructor` | src/concurrency.rs:17-25 | a new limiter holds no chats |
| `Concurrency.ConcurrencyLimiter.TryLock` | src/concurrency.rs:29-40 | returns a new, unreleased guard for this chat iff the chat was not held; afterwards the chat is held and no other chat changes |
| `Concurrency.LockGuard.constructor` | src/concurrency.rs:32-35 | the guard records its limiter and chat id, and is not yet released |
| `Concurrency.LockGuard.Drop` | src/concurrency.rs:10-14 | release removes exactly the guard's chat; all other chats stay held. A guard is released at most once, as Rust drops a value once |
| `Concurrency.TryLockTwice` | src/concurrency.rs:30 | two attempts on one chat without a release: the second always fails, the first succeeds iff the chat was free |
| `Concurrency.LockReleaseLock` | src/concurrency.rs:10-40 | after a guard is dropped, the same chat can be locked again |
| `Handler.SendCalls` | src/handler.rs:18-24 | at most one send per path. Each send is a video or photo to the same chat and message with the downloader's caption, and its kind matches its path's extension |
| `Handler.SendCallsAppend` | src/handler.rs:18-24 | the sends for two runs of paths are each run's sends in order, so no send depends on an earlier one |
| `Handler.SendsFollowPaths` | src/handler.rs:18-24 | the send_video paths are exactly the ".mp4" paths, in order. The send_photo paths are exactly the ".jpg"/".png" paths, in order |
| `Handler.MessageHandler` | src/handler.rs:5-31 | text not starting with "http" makes no call. A failed download gives exactly the download call and one error message. A success gives the download call and then the sends for the returned paths. A failed download sends no video or photo, and an error message is sent only for a failed download |
| `Handler.SuccessSendsNoError` | src/handler.rs:16-25 | after a successful download the trace holds only the download call and media sends, never an error message |
| `Handler.ErrorSendsNoMedia` | src/handler.rs:26-29 | on a failed download no video or photo is sent, and exactly one error message is |
| `Handler.OneVideoScenario` | src/handler.rs:40-57 | one ".mp4" path gives exactly one send_video with the downloader's caption |

## Left out

- src/main.rs: logging, environment, authentication, the webhook and the dispatcher are bootstrap and I/O. `handle_url` (src/main.rs:128-164) takes the lock with `TryLock` and, when the chat is busy, sends a busy message. Otherwise it sends a typing chat action, sets an emoji reaction on the message, calls `process_download_request`, which no shown file defines, and then clears the reaction. `handle_unhandled_message` (src/main.rs:166-178) answers non-links with "Your message isn't a valid link!". None of these Telegram calls is modelled.
- src/telegram_api.rs: the Telegram wrapper is a collaborator, observed only as recorded calls in `Handler.Call`. The result of each send is discarded by the handler, so it is not modelled.
- src/test_utils.rs, build.rs, src/lib.rs: test fixtures, a build log line and re-exports. lib.rs re-exports a `process_download_request` that does not exist, and test_utils.rs builds a metadata shape that differs from downloader.rs.
- Downloader process: the yt-dlp spawn, the UUID file-name template and logging are foreign calls. The process result is the `ProcessOutput` parameter. Its standard output is taken as already-decoded text, so `from_utf8_lossy` is not modelled.
- JSON decoding: `serde_json` is a foreign call. It is the `parse` parameter, mapping each line to an optional `MediaMetadata`.
- Validator types: validator.rs imports a `MediaInfo` from downloader.rs that the shown downloader.rs does not declare. `Validator.MediaInfo` holds the four fields the validator reads.
- Storage media type: storage.rs imports a `MediaType` from downloader.rs that the shown downloader.rs does not declare. `Storage.MediaType` is the two-variant enum that storage.rs matches on.
- Handler shape: handler.rs treats the downloader's result as (caption, file path strings) and calls a `send_error_message` that the Telegram trait lacks. It is modelled against its own code, as `Handler.DownloadResult` and `Handler.Call.SendErrorMessage`.
- Handler test text: the test at src/handler.rs:71 expects the text "not find media", which the code's message does not contain. That expectation is not modelled.
- Validator floating point: duration is a `real`, so NaN and infinities are not modelled. The `{:.0}` rounding of the error messages is not modelled. The error values themselves are.
- Storage.PostgresStorage.constructor: `new` only wraps a connection pool. The model has no pool, so the constructor starts from empty tables. A store over existing data is reached through the other methods, which assume only `Valid()`.
- Storage SQL: the SQL text, sqlx, migrations and the `cleanup_expired` TTL sweep are database I/O. Only the table contents are modelled.
- Storage.PostgresStorage.GetCachedMedia: does not model the `last_used_at` refresh, because timestamps are not part of the model. It is therefore a read-only function.
- Storage.PostgresStorage.GetCachedMedia: a failing SELECT yields None in the source, the same value as a miss. The model has no separate database-error input for reads.
- Storage.PostgresStorage.StoreCachedMedia: assumes the DELETE of old file rows succeeds. The source ignores its result, and a failed DELETE would leave duplicate positions.
- Storage ORDER BY: the file rows of each id are kept in ascending position order, an invariant of `Valid()`, so the stored order is the ORDER BY order. The `position as i32` cast is not modelled, since positions are list indices.
- Concurrency: DashSet atomicity, thread safety and the timing of Rust's `Drop` are concurrency concerns. The limiter is a sequential class, and release is an explicit `Drop` call.
- Behaviour not in these source files: URL canonicalisation, HTML escaping of caption parts, a staged-file cleanup guard and cache-replay orchestration. None of it is modelled.
