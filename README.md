# FanslyStreamRecorder, modelled in Dafny

FanslyStreamRecorder watches a list of Fansly creators. When one of them goes live it records the
broadcast with ffmpeg. It then makes a contact-sheet thumbnail, optionally compresses the video and
uploads it to Bunkr and GoFile (the thumbnail to jpg5 and Bunkr). Finally it posts the links to a
Discord channel and writes them beside the recording. Before each recording it frees disk space by
removing the oldest recordings.

This project models that core, one Dafny module per source file:

- `Monitor` (`src/monitor.py`): the per-creator `UserMonitor` class, with its polling loop,
  `start_recording`, `handle_stream_end`, the end-of-stream notice and the link file.
- `Fansly` (`src/fansly.py`): the API requests with backoff and the stream lookup.
- `Config` (`src/config.py`): the settings questionnaire, the boolean and interval parsers and
  the settings dump.
- `Cleanup` (`src/video/cleanup.py`): the drive walk, the candidate listing, the ctime sort and the
  eviction sweep.
- `Video` (`src/video/video.py`): compression and size-based splitting.
- `Thumbnail` (`src/video/thumbnail.py`): frame seeking, batched extraction, the sheet layout and
  the timestamps.
- `Upload` (`src/upload/upload.py`): the uploader registry, its verification and the per-service
  dispatch.
- `Bunkr` (`src/upload/bunkr.py`): the `BunkrUploader` class, with the chunked multipart
  protocol, its retries and finalisation, the whole-file retry loop and batch uploads.
- `GoFile` (`src/upload/gofile.py`): the account check, zone and server choice, and the upload.
- `Jpg5` (`src/upload/jpg5.py`): the cookie file, the auth-token scrape, the multipart body and
  the upload.
- `DiscordBot` (`src/discord_bot.py`): the message queue and its delivery.
- `Ui` (`src/ui.py`): the table of monitored users.

Helper modules model the Python library behaviour the core relies on:

- `Strings`: `strip`, `split`, `replace`, `int`/`str` and UTF-8.
- `Paths`: `os.path` and `pathlib`.
- `Dicts`: insertion-ordered dictionaries.
- `Clock`: `strftime`.
- `Seqs` and `Wrappers`: general-purpose helpers.

Every effect is an oracle parameter. These include:

- HTTP replies, indexed by request number;
- the file system's answers;
- ffmpeg and OpenCV results;
- the clock and uuid draws.

Objects whose fields the source updates are classes: `UserMonitor`, `BunkrUploader`, the Discord
bot, the UI, the upload registry and the video capture. Their methods are proved against recursive
specification functions (`Run`, `ChunkRun`, `Whole`, `BatchRun`, `Evict`, `Extract`, ...). The
lemmas beside those functions state what the source promises. For example:

- every chunk is sent at most three times and together the chunks carry the file;
- eviction removes the oldest recordings first and stops at the first point where enough space is
  freed;
- the cookie file round-trips;
- the ctime sort is a stable sorted permutation.

The cleanup candidates are the top-level `.mp4`, `.mkv`, `.avi` and `.mov` files of the output
directory. No file is exempt from eviction by its name. The monitor has no status value of its
own: its state is its flags and fields.

## Model

| member | source | states |
|---|---|---|
| Fansly.FetchApi | src/fansly.py:34-63 | at most `max_retries + 1` requests; every request but the last was a 429 or a client error and was followed by the current delay (doubling from `initial_delay`) or the `Retry-After` value; the result is the JSON of the last request exactly when it succeeded, an uncaught error is passed on, and a retryable error on the last request means the retries were used up |
| Fansly.BackoffDoubles | src/fansly.py:53-63 | the backoff delay grows strictly from one retry to any later one |
| Fansly.FetchStreamData | src/fansly.py:71-78 | fails exactly when the underlying request fails; otherwise returns the channel's stream record as read by `StreamOf` |
| Fansly.StreamOf | src/fansly.py:74-78 | a reply without `success`, or with no stream, gives the empty stream record; a successful reply gives its `response.stream` |
| DiscordBot.DeliverSubsequence | src/discord_bot.py:44-52 | the texts posted by a drain of the queue are taken from the queue, in queue order |
| DiscordBot.DeliverNoRepeats | src/discord_bot.py:49-52 | no posted text equals the one posted just before it, including the last text posted before the drain |
| DiscordBot.Bot.constructor | src/discord_bot.py:16-30 | the bot starts enabled as configured, with the environment's token, not ready, nothing queued and nothing posted |
| DiscordBot.Bot.Start | src/discord_bot.py:65-94 | notifications stay on only when they were on, a non-empty token is present and the login succeeds; nothing else changes |
| DiscordBot.Bot.OnReady | src/discord_bot.py:32-34 | the client becomes ready and nothing else changes |
| DiscordBot.Bot.SendMessage | src/discord_bot.py:102-105 | a message is queued exactly when notifications are on |
| DiscordBot.Bot.ProcessMessages | src/discord_bot.py:36-63 | before `on_ready` nothing happens; afterwards the queue is emptied and what was posted is `Deliver` of the old queue, so the no-repeat invariant `Valid` is kept |
| Ui.Updated | src/ui.py:41-46 | after an update the entry has the given status and time, and `recording`/`current_file` change only when a value is given |
| Ui.AddUserEffect | src/ui.py:21-28 | `add_user` (re)sets the user's entry to the initial one and leaves every other user's entry alone |
| Ui.UpdateUserEffect | src/ui.py:40-46 | `update_user` on an unknown user changes nothing; on a known one it replaces only that user's entry by `Updated`, and the set of users is unchanged |
| Ui.CurrentFileNeverCleared | src/ui.py:45-46 | once a user has a current file, no `update_user` call takes it away |
| Ui.Rows | src/ui.py:61-66 | one row per user, the i-th row built from the i-th entry |
| Ui.RowsProjection | src/ui.py:61-66 | row i shows user i's name, status and recording flag, and `-` for a missing or empty current file |
| Ui.MonitorUI.constructor | src/ui.py:16-19 | no users are tracked at first |
| Ui.MonitorUI.AddUser | src/ui.py:21-30 | the state table becomes `Set(old, username, InitialState)` |
| Ui.MonitorUI.UpdateUser | src/ui.py:32-47 | the state table becomes `UpdateIn(old, ...)`, whose effect `UpdateUserEffect` states |
| Ui.MonitorUI.StreamsTable | src/ui.py:49-68 | the rows built by the loop are exactly `Rows` of the state table |
| GoFile.ResponseHandler | src/upload/gofile.py:4-10 | `"ok"` gives the data; a status containing `error-` raises with the text between the first and second hyphen; any other status gives None |
| GoFile.CheckAccountExistsAgreesWithHandler | src/upload/gofile.py:13-33 | the account check is true exactly for a reply that arrives and that `response_handler` turns into data, i.e. status `"ok"`; any failure gives false |
| GoFile.InZone | src/upload/gofile.py:94 | the filtered servers are all in the zone and taken from the list |
| GoFile.ZoneIndex | src/upload/gofile.py:94 | the position of the first server in the zone, or -1 when none is |
| GoFile.InZoneHead | src/upload/gofile.py:94-102 | the zone list is empty exactly when no server is in the zone, and otherwise starts with the first server in list order that is |
| GoFile.GetServer | src/upload/gofile.py:80-105 | a failed or non-`ok` reply fails; otherwise the first server in the zone, else the first server overall, and `noServersAvailable` for an empty list |
| GoFile.UploadRequestFor | src/upload/gofile.py:108-128 | the request exists exactly when a server is given or `getServer` finds one and the file opens; `folderId` is in the form data only when truthy; the `Authorization: Bearer` header only when a token is given |
| GoFile.UploadFile | src/upload/gofile.py:108-135 | a request that cannot be built is an error before any upload; a failed post is that error; an `ok` reply gives its data; any other status is an error exactly when it contains `error-`, and gives no data otherwise |
| Config.DefaultsConsistent | src/config.py:9-63 | the `Config` defaults: a check interval of 60 seconds, no users, 20.0 GB of minimum free space, uploads, notifications and developer mode off with no channel id; they also satisfy the derived-flag rules the questionnaire guarantees |
| Config.ModelDump | src/config.py:65-68 | the dump lists every field under its name, in declaration order, with the output directory as a string |
| Config.DumpRoundTrip | src/config.py:65-68 | reading a dump back gives the same configuration |
| Config.ParseBoolMeaning | src/config.py:114-122 | after strip and lowercase, an empty reply takes the default, `y`/`yes` answer true and `n`/`no` answer false; anything else asks again |
| Config.GetBooleanSetting | src/config.py:110-122 | the answer is the first reply that parses, every earlier reply was asked again, and running out of replies is an `EOFError` |
| Config.ParseInterval | src/config.py:125-142 | an empty reply gives 60, and every accepted interval is at least 10 |
| Config.ParseIntervalOfDigits | src/config.py:134-139 | every interval of at least 10 seconds, typed as its decimal digits, is accepted as that value |
| Config.GetCheckInterval | src/config.py:125-142 | the interval is the first reply that parses and is at least 10; every earlier reply was asked again; running out of replies is an `EOFError` |
| Config.UsersUntil | src/config.py:98-103 | before the first empty reply the users are exactly the stripped replies, one each, none empty |
| Config.ReadUsers | src/config.py:98-103 | the loop stops at the first reply that strips to empty and has collected `UsersIn` of the replies read; with no empty reply it ends in `EOFError` |
| Config.GetUsersToMonitor | src/config.py:95-107 | the users are the stripped, non-empty replies, in entry order, up to the first empty one; running out of replies is an `EOFError` |
| Config.GetDiscordSettings | src/config.py:145-157 | the flag is the first reply the yes/no question accepts, earlier replies re-asked; when enabled the channel id is the first non-empty stripped reply after it, every reply in between stripping to `""`; when disabled the id is `""` and nothing more is read; running out of replies is an EOF error |
| Config.GetAllSettings | src/config.py:185-233 | every configuration the questionnaire produces has an interval of at least 10, no deletion of originals without compression, deletion of split files whenever uploading is off, notifications on exactly when a channel id is set, the users read from the first replies (non-empty), developer mode off, and the given output directory and clean-up answers; running out of replies is an `EOFError` |
| Jpg5.SaveCookies | src/upload/jpg5.py:51-61 | one `{name, value}` record per cookie |
| Jpg5.LoadCookies | src/upload/jpg5.py:64-81 | a well-formed dictionary; `{}` when the file is missing, unreadable or a record lacks a key |
| Jpg5.PairsOfSave | src/upload/jpg5.py:59 | the saved records list every cookie's name and value, in the dictionary's order |
| Jpg5.LoadSaveCookies | src/upload/jpg5.py:59-79 | loading what was saved gives the same dictionary back, keys in the same order |
| Jpg5.LoadCookiesLastWins | src/upload/jpg5.py:79 | with repeated names in the file, the last record's value wins |
| Jpg5.FirstLineWith | src/upload/jpg5.py:28 | the line found contains the marker, and none is found exactly when no line contains it |
| Jpg5.FirstLineWithIsFirst | src/upload/jpg5.py:28 | the line found is one of the lines, and no earlier line contains the marker, as `next` over the generator takes the first |
| Jpg5.ScriptTokenShape | src/upload/jpg5.py:28-29 | a token cut from a script holds no `=`, and neither of its ends is a `"` or a `;` |
| Jpg5.LineTokenShape | src/upload/jpg5.py:29 | the same shape for the token cut out of a single line |
| Jpg5.MarkerLineExists | src/upload/jpg5.py:26-29 | a script with the marker always has a line with it, so extraction fails only when that line has no `=` |
| Jpg5.ScriptTokenOfAssignment | src/upload/jpg5.py:26-29 | a script `PF.obj.config.auth_token = "<tok>";` yields exactly `tok` |
| Jpg5.TokenOf | src/upload/jpg5.py:24-30 | no token exactly when no script carries the marker; otherwise the first such script decides, and a marker line without `=` raises `IndexError` |
| Jpg5.ScanScripts | src/upload/jpg5.py:25-30 | the loop with `break` computes `TokenOf` of the page's scripts |
| Jpg5.MergeSetCookies | src/upload/jpg5.py:33-36 | the merged dictionary is the loaded one with each cookie the page set written over it, in order |
| Jpg5.GetToken | src/upload/jpg5.py:12-39 | a failed page fetch raises before anything is saved; otherwise the token is `TokenOf` the page's scripts, and exactly when extraction does not raise the merged cookies are saved |
| Jpg5.MergedCookieFile | src/upload/jpg5.py:33-38 | after `get_token` the cookie file keeps every cookie it had, in place, and each cookie the page set holds the last value the page gave it |
| Jpg5.Verify | src/upload/jpg5.py:42-48 | raises `No cookies found` when the cookie file yields nothing, and passes exactly when cookies load and a truthy token is found |
| Jpg5.ContentTypeCases | src/upload/jpg5.py:193-204 | each of the seven listed extensions gets its media type, and exactly the others get `application/octet-stream` |
| Jpg5.BuildBody | src/upload/jpg5.py:148-180 | the body built part by part equals `Body`: the file part, the chunk of content, each field part, then the closing delimiter |
| Jpg5.BodyLayout | src/upload/jpg5.py:165-177 | the fields after the file are `type`, `action`, `timestamp`, `auth_token` and `nsfw` (`1`/`0`), in that order |
| Jpg5.ReplyOf | src/upload/jpg5.py:183-190 | a post that raises is an error; an unparsable reply becomes the truthy `{"error": ...}` record; a parsed reply is returned as is |
| Jpg5.UploadFile | src/upload/jpg5.py:84-190 | a missing file raises `FileNotFoundError` before any request; a request is posted exactly when the file exists and a truthy token is found, with the body laid out by `Body` under the name `<uuid><lowercased ext>` and the stored cookies plus `__ddg10_`; its reply goes through `ReplyOf` |
| Cleanup.DriveIsMountAbove | src/video/cleanup.py:22-29 | the drive reached by walking `dirname` upward is `/` or a mount point that is a prefix of the output directory |
| Cleanup.FindDrive | src/video/cleanup.py:23-29 | the `while not ismount` loop ends at `Drive` of the output directory |
| Cleanup.Glob | src/video/cleanup.py:40 | the glob gives exactly the top-level entries whose name ends with the extension |
| Cleanup.GatheredMembers | src/video/cleanup.py:38-40 | the gathered entries are exactly the listed ones that end with one of the extensions |
| Cleanup.CandidatesAreRecordings | src/video/cleanup.py:38-40 | the candidates are exactly the top-level `.mp4`, `.mkv`, `.avi` and `.mov` entries |
| Cleanup.GatherCandidates | src/video/cleanup.py:38-40 | the extend loop gathers `Candidates`: the `.mp4` entries, then `.mkv`, `.avi` and `.mov` |
| Cleanup.InsertPermutes | src/video/cleanup.py:47 | one insertion step of the sort adds exactly the inserted entry |
| Cleanup.InsertSorted | src/video/cleanup.py:47 | inserting into a list sorted by creation time keeps it sorted |
| Cleanup.InsertStable | src/video/cleanup.py:47 | an inserted entry goes after every entry with the same creation time; no other order changes |
| Cleanup.SortByCtimeSortedPermutation | src/video/cleanup.py:47 | the sort orders by creation time, oldest first, and is a permutation of the candidates |
| Cleanup.SortByCtimeStable | src/video/cleanup.py:47 | the sort is stable: entries with equal creation times keep their gathered order |
| Cleanup.Take | src/video/cleanup.py:63-73 | when the video is removed, the removal log is the thumbnail (if it existed) and then the video |
| Cleanup.TakeRemoves | src/video/cleanup.py:63-81 | only existing paths whose removal does not raise are removed; the video is removed exactly when its thumbnail, if present, was removed first and the video could then be removed |
| Cleanup.EvictAborts | src/video/cleanup.py:57-59 | a candidate missing from disk makes `getsize` raise, which ends the whole check where it stands |
| Cleanup.EvictStep | src/video/cleanup.py:57-81 | a failed removal or one that does not free enough hands the sweep on to the next candidate; one that frees enough ends it with `Freed` |
| Cleanup.EvictFreed | src/video/cleanup.py:76-78 | the removal that reaches the target ends the loop with that candidate as the last one removed |
| Cleanup.AfterAccounts | src/video/cleanup.py:71-73 | handling one candidate keeps `files_removed` equal to the number of removed videos and `bytes_freed` equal to the sum of their sizes |
| Cleanup.EvictAccounts | src/video/cleanup.py:53-81 | at the end `files_removed` counts and `bytes_freed` sums exactly the removed videos, visited in sorted order |
| Cleanup.EvictStopsAtFirstEnough | src/video/cleanup.py:57-78 | started short of the target, the loop ends with `Freed` only right after the first removal that frees enough; otherwise it never freed enough |
| Cleanup.EvictRemovesOnly | src/video/cleanup.py:57-81 | the loop removes only existing paths whose removal does not raise, and the file system loses exactly those |
| Cleanup.TryRemove | src/video/cleanup.py:63-73 | the `try` block's removals are exactly `Take` |
| Cleanup.EvictOldest | src/video/cleanup.py:53-81 | the `for` loop with its `break` computes `Evict` from the first candidate and an empty sweep |
| Cleanup.CleanupIdle | src/video/cleanup.py:15-44 | a missing directory, enough free space or no recordings leave the disk untouched and send no notification |
| Cleanup.CleanupRemovesOnly | src/video/cleanup.py:15-92 | a check removes only existing, removable paths, the disk loses exactly those, and a notification is sent only when the bot is enabled and eviction ran |
| Cleanup.CleanupFreesOldestUntilEnough | src/video/cleanup.py:36-92 | when eviction runs the counters account for the removed candidates in sorted order, it stops right after freeing `min_free_gb - free_gb` gigabytes, and the bot is notified unless `getsize` raised, even if nothing was removed |
| Cleanup.CheckDiskSpaceAndCleanup | src/video/cleanup.py:7-95 | the step-by-step check computes `Cleanup` |
| Video.CompressedPath | src/video/video.py:69 | the compressed path is the input's text before its last `.` followed by `_compressed.mp4`, and never the input path itself |
| Video.CompressVideo | src/video/video.py:61-138 | every branch hands on the compressed path or the input path; the compressed path exactly when it already existed or ffmpeg exited with 0 and left its output and the input was not empty (an empty input divides by zero, which the `except` turns into handing on the input); ffmpeg runs only when no compressed file exists and the input does; the notification follows a successful run, and removal of the original is attempted exactly then when `delete_original` is on |
| Video.RemovalDoesNotMatter | src/video/video.py:123-129 | a failed removal of the original does not change the path handed on |
| Video.Ceil | src/video/video.py:157 | `math.ceil`: the least integer not below its argument |
| Video.SegmentCountMinimal | src/video/video.py:153-157 | for a positive bound, the part count is the fewest parts of at most the bound that hold the whole file |
| Video.ListingIndex | src/video/video.py:164 | the list built by appending holds `f(i)` at index `i` |
| Video.PartsDistinct | src/video/video.py:164 | two parts of the same video never share a path: `<stem>_part<i+1><suffix>` inside `<stem>_chunks` |
| Video.CutsContiguous | src/video/video.py:187-191 | the first cut starts at 0, and each cut starts where the one before it ends |
| Video.CutsTile | src/video/video.py:184-191 | the cuts of a video of `duration` seconds are contiguous and the last one ends at `duration` |
| Video.FirstFailure | src/video/video.py:190-208 | the first failing ffmpeg run, every earlier one having succeeded, or the count when none fails |
| Video.SplitParts | src/video/video.py:141-210 | for a positive bound, a split that succeeds returns exactly the minimal number of parts in index order, and either cuts nothing or cuts each part once, in order, at `i·(duration/n)` |
| Video.SplitMissing | src/video/video.py:149-151 | a missing video raises `FileNotFoundError` before anything else happens |
| Video.SplitReuses | src/video/video.py:160-166 | when the chunks directory holds every expected part, they are returned and nothing is cut |
| Video.SplitVideoBySize | src/video/video.py:141-210 | the step-by-step split computes `Split` |
| Video.CutParts | src/video/video.py:190-210 | the cutting loop appends each part before cutting it, stops at the first failing cut, and computes `Cutting` |
| Thumbnail.FloorDiv | src/video/thumbnail.py:11-12 | dividing by a whole number before or after flooring gives the same floor |
| Thumbnail.FloorMod | src/video/thumbnail.py:12-13 | the floor of Python's float `x % m` is the remainder of the floor of `x` |
| Thumbnail.SplitSeconds | src/video/thumbnail.py:11-13 | a count of whole seconds `s` splits into `h = s div 3600`, `m = (s mod 3600) div 60` and `sec = s mod 60`, with `m` and `sec` below 60 and `3600h + 60m + sec = s` |
| Thumbnail.SecondsFields | src/video/thumbnail.py:10-13 | the fields of a non-negative float count of seconds are those of its whole part |
| Thumbnail.FieldsOfSeconds | src/video/thumbnail.py:7-13 | for a non-negative frame index and a positive frame rate, the fields are hours, minutes and seconds of the floor of `frame_idx / fps`, and they recompose it |
| Thumbnail.TimestampText | src/video/thumbnail.py:7-14 | the timestamp is the three fields, each zero-padded to two digits, joined by `:` |
| Thumbnail.Layout | src/video/thumbnail.py:168-177 | every band's frame count is a positive multiple of its column count |
| Thumbnail.LayoutMonotone | src/video/thumbnail.py:168-177 | a longer video never gets fewer frames or fewer columns |
| Thumbnail.RowsCeil | src/video/thumbnail.py:123 | `rows = (n + cols - 1) // cols` is the least row count that holds `n` frames, and `n / cols` when `cols` divides `n` |
| Thumbnail.LayoutFillsRows | src/video/thumbnail.py:168-177 | a full extraction fills every row of the chosen layout |
| Thumbnail.CellsDistinct | src/video/thumbnail.py:135-140 | different frames of a grid with non-empty cells never share a corner |
| Thumbnail.CellInside | src/video/thumbnail.py:123-140 | every frame's cell lies inside the `cols·w × rows·h` canvas |
| Thumbnail.SheetOps | src/video/thumbnail.py:135-149 | three drawing operations per frame |
| Thumbnail.SheetOpsAt | src/video/thumbnail.py:135-149 | the operations for frame `idx` sit at `3·idx`, in paste, shadow, text order |
| Thumbnail.ComposePlacesEveryFrame | src/video/thumbnail.py:123-151 | every frame of a saved sheet is pasted at `(idx mod cols · w, idx div cols · h)` inside the canvas, and its label is drawn at `(x + w − text_width − 10, y + h − 30)`, first in black one pixel down-right, then in white |
| Thumbnail.DrawFrame | src/video/thumbnail.py:135-149 | one pass of the drawing loop appends that frame's paste, shadow and label |
| Thumbnail.DrawAll | src/video/thumbnail.py:135-149 | the drawing loop makes exactly `SheetOps` |
| Thumbnail.CreateThumbnail | src/video/thumbnail.py:117-151 | the step-by-step drawing computes `Compose`: nothing saved for no frames, otherwise the canvas of the first frame's cell size with every frame drawn |
| Thumbnail.Capture.constructor | src/video/thumbnail.py:60 | a fresh capture on the video, with no calls made |
| Thumbnail.Capture.Set | src/video/thumbnail.py:35-53 | `cap.set` is logged and reads nothing |
| Thumbnail.Capture.Read | src/video/thumbnail.py:45-48 | `cap.read` returns the video's next frame and advances the read count |
| Thumbnail.Reads | src/video/thumbnail.py:44-45 | the forward reads of the third strategy are `min(30, idx)` reads |
| Thumbnail.Probe | src/video/thumbnail.py:32-48 | one attempt positions the capture by its strategy and ends with a read, whose frame it returns |
| Thumbnail.Seek | src/video/thumbnail.py:29-55 | a seek only reads forward |
| Thumbnail.SeekHit | src/video/thumbnail.py:48-50 | an attempt that reads a valid frame ends the seek with it |
| Thumbnail.SeekMiss | src/video/thumbnail.py:48-53 | an attempt that reads no valid frame resets the position to 0 and hands over to the next strategy |
| Thumbnail.SeekGivesUp | src/video/thumbnail.py:29-55 | once all three strategies were tried the seek returns `(False, None)` |
| Thumbnail.SeekOutcome | src/video/thumbnail.py:29-55 | a seek returns a valid frame, the one its last read returned, or, after every strategy failed, nothing, having reset the position to 0 last |
| Thumbnail.Attempt | src/video/thumbnail.py:32-49 | the calls one attempt makes on the capture are exactly `Probe` |
| Thumbnail.SeekFrame | src/video/thumbnail.py:29-55 | the attempt loop on the capture computes `Seek` from the first strategy |
| Thumbnail.FetchCached | src/video/thumbnail.py:82-85 | a cached index reuses its frame and makes no call on the capture |
| Thumbnail.ProcessedAppend | src/video/thumbnail.py:97-107 | processing two lists of frames in turn is processing their concatenation |
| Thumbnail.BatchesChangeNothing | src/video/thumbnail.py:75-107 | handling the indices two at a time gives the same frames, in the same order, as handling them one at a time |
| Thumbnail.OneByOneAtMost | src/video/thumbnail.py:81-107 | each index yields at most one frame, and frames are only added |
| Thumbnail.ExtractedAtMost | src/video/thumbnail.py:58-114 | an unopenable video gives `[]`; otherwise at most one frame per index, in index order, failed seeks dropped and cached indices reused |
| Thumbnail.ReadBatch | src/video/thumbnail.py:81-94 | the reading loop of a batch computes `Gather`: the cache and the capture's calls included |
| Thumbnail.ProcessBatch | src/video/thumbnail.py:97-107 | results are collected in submission order, and a frame whose processing fails is dropped |
| Thumbnail.ExtractStep | src/video/thumbnail.py:75-107 | the batch loop from index `i` is the batch of the next two indices followed by the rest |
| Thumbnail.ExtractFrames | src/video/thumbnail.py:58-114 | the step-by-step extraction computes `Extracted` |
| Thumbnail.AutoThumbnailSaves | src/video/thumbnail.py:154-181 | once the frame rate is known the thumbnail never raises, and it is saved exactly when some frame was extracted, with the layout's column count |
| Thumbnail.AutoCreateThumbnail | src/video/thumbnail.py:154-181 | the step-by-step version computes `AutoThumbnail`: nothing for a video that does not open, the duration band picks the layout |
| Upload.Jpg5Result | src/upload/upload.py:29-37 | a raised upload is caught into `error`; a reply with `status_code` 500 is a failure; any other non-empty reply is a success whose URL is `image.url`, possibly missing |
| Upload.GoFileResult | src/upload/upload.py:39-47 | a raised upload is caught into `error`; success exactly when the returned data holds `downloadPage`, which becomes the URL |
| Upload.RemovalsStop | src/upload/upload.py:69-74 | the removal loop inside one `try` stops at the first removal that raises: all attempted removals but the last succeeded, and all paths are attempted when none raises |
| Upload.ManyRecord | src/upload/upload.py:64-67 | a split upload succeeds, with `multiple` and the URL list, exactly when some URL came back; otherwise the record stays initial |
| Upload.OneRecord | src/upload/upload.py:77-81 | a whole-file upload succeeds exactly when a non-empty URL came back; a raise is caught into `error` |
| Upload.BunkrShaped | src/upload/upload.py:49-81 | every record of the Bunkr branch has the fixed shape |
| Upload.DispatchShaped | src/upload/upload.py:26-89 | every record `upload_file` returns starts from `{success: False, url: None, multiple: False, urls: []}` and has the fixed shape; `upload_file` never raises |
| Upload.UnverifiedShortCircuits | src/upload/upload.py:29-51 | a known service absent from `verified_uploaders` gets the initial record, with no upload and no removal |
| Upload.BunkrAsWritten | src/upload/upload.py:54-87 | as written, once the size is read and the uploader constructed, every Bunkr upload ends in the caught `AttributeError` for `max_file_size`, with no request and no removal |
| Upload.BunkrLimitRule | src/upload/upload.py:56-81 | with a limit, a larger file is split; the upload succeeds with several URLs exactly when `upload_files` returned any, and the parts are removed exactly when `delete_split_video_after_upload` is on; a file within the limit is uploaded whole |
| Upload.BunkrManyCarried | src/upload/upload.py:58-62 | each URL of a split upload is a non-empty one carried by a reply of the Bunkr network |
| Upload.NewlyMembers | src/upload/upload.py:96-112 | a `verify_uploaders` call appends each service exactly when its check passed, in the fixed order bunkr, jpg5, gofile |
| Upload.NewlyAppended | src/upload/upload.py:96-112 | the list built append by append is `Newly` |
| Upload.Registry.constructor | src/upload/upload.py:12 | `verified_uploaders` starts empty |
| Upload.Registry.VerifyUploaders | src/upload/upload.py:92-114 | the list grows by `Newly` of the three checks, never shrinks, and is returned; a second call appends again |
| Upload.Registry.RemoveSplits | src/upload/upload.py:69-74 | the removal loop attempts exactly `Removals` |
| Upload.Registry.UploadFile | src/upload/upload.py:15-89 | the record filled field by field is `Dispatch` of the service, the verified list and the branches' results |
| Upload.Registry.UploadBunkr | src/upload/upload.py:49-81 | the Bunkr branch computes `BunkrBranch` of what its calls come to |
| Bunkr.ParseSize | src/upload/bunkr.py:127-128 | a parsed size is a whole number of mebibytes |
| Bunkr.ParseSizeOfMB | src/upload/bunkr.py:127-128 | `"<n>MB"` parses to exactly `n` MiB |
| Bunkr.DefaultMaxSizeValue | src/upload/bunkr.py:190-191 | the default `maxSize` is 2000 MiB |
| Bunkr.ChunkSizeFor | src/upload/bunkr.py:126-132 | succeeds exactly when `chunkSize.max` is present and parses and, for an oversize request, the default does too; a request within the maximum is kept, an oversize one becomes the default |
| Bunkr.ChunkSizeOfMB | src/upload/bunkr.py:126-132 | with `"<n>MB"` settings the chunk size is the request when it fits, else the default |
| Bunkr.VerifyFile | src/upload/bunkr.py:175-196 | a missing or unreadable file is refused; otherwise the result is "size at most the limit", and an unparsable limit raises |
| Bunkr.VerifyFileDefaultLimit | src/upload/bunkr.py:190-195 | without `maxSize`, exactly the files of at most 2000 MiB pass |
| Bunkr.CeilDiv | src/upload/bunkr.py:401 | for a positive chunk size the count is the least number of chunks covering the file (zero for an empty one) |
| Bunkr.SingleChunkIff | src/upload/bunkr.py:401-410 | exactly the non-empty files no larger than one chunk take the single-request path |
| Bunkr.ChunkStartsInFile | src/upload/bunkr.py:268-275 | every chunk index below the count starts inside the file |
| Bunkr.ChunkBounds | src/upload/bunkr.py:268-275 | chunk `k` exists exactly when its offset lies inside the file |
| Bunkr.ReadAt | src/upload/bunkr.py:273-275 | a read returns at most the requested bytes, within the file |
| Bunkr.ChunksCoverFile | src/upload/bunkr.py:268-275 | the chunks read one after another from chunk `k` are the file from offset `k * chunk` on |
| Bunkr.FieldLinesText | src/upload/bunkr.py:305-309 | the joined field lines are one `form-data` part per field |
| Bunkr.FormText | src/upload/bunkr.py:305-320 | the text before the chunk bytes is the field parts followed by the file part's header |
| Bunkr.ChunkPayloadLayout | src/upload/bunkr.py:320-324 | the payload is the field parts, the file header, the chunk bytes and the closing boundary, in that order |
| Bunkr.DzFieldParts | src/upload/bunkr.py:296-309 | the six `dz*` fields appear in the dictionary's order, each as its own part |
| Bunkr.StepAt | src/upload/bunkr.py:268-379 | every step of the chunk protocol decreases a measure, so the protocol ends |
| Bunkr.ChunkRunLog | src/upload/bunkr.py:268-379 | the chunk protocol only appends; each request is the chunk request for its index at that position or the finish request |
| Bunkr.SameUpload | src/upload/bunkr.py:260-352 | every request of one chunked upload carries the same `dzuuid` and goes to the same URL |
| Bunkr.ChunkRunFirst | src/upload/bunkr.py:268-380 | an active phase sends its own request first; a spent one sends nothing and returns `None` |
| Bunkr.StepFollows | src/upload/bunkr.py:268-379 | a chunk is resent only after a reply that was not accepted, the next chunk follows an accepted one, finalizing only follows a last chunk whose reply said `success`, and a finish request is repeated only after one that brought no URL |
| Bunkr.ChunkRunSteps | src/upload/bunkr.py:268-379 | every request a run sends follows the one before it in that way |
| Bunkr.ChunkRunPrefix | src/upload/bunkr.py:268-380 | the chunk protocol only appends to the log |
| Bunkr.FinishingReach | src/upload/bunkr.py:332-368 | finalizing sends only finish requests, at most three |
| Bunkr.SendingReach | src/upload/bunkr.py:268-379 | no chunk before `k` is sent again, and chunk `k` only within its remaining tries |
| Bunkr.ChunkRunBounded | src/upload/bunkr.py:269-333 | no chunk is sent more than three times, and at most three finish requests |
| Bunkr.ChunkRunUrl | src/upload/bunkr.py:354-360 | a URL comes only from the last request, a finish request whose reply carried it |
| Bunkr.ChunkSeries | src/upload/bunkr.py:268-326 | the series for chunks `k` onwards has one request per remaining chunk, in index order |
| Bunkr.HappyRun | src/upload/bunkr.py:268-360 | a server that accepts everything gets each remaining chunk once, then one finish request, and its URL is returned |
| Bunkr.HappyNext | src/upload/bunkr.py:328-369 | an accepted chunk other than the last moves on to the next chunk |
| Bunkr.HappyLast | src/upload/bunkr.py:330-360 | an accepted last chunk leads to a finish request whose URL is returned |
| Bunkr.LastChunkStep | src/upload/bunkr.py:330-333 | an accepted last chunk sends that chunk and then finalizes |
| Bunkr.HappyFinish | src/upload/bunkr.py:348-360 | a finish reply carrying the URL ends the upload with it |
| Bunkr.SeriesData | src/upload/bunkr.py:272-324 | the chunk requests from `k` on carry the file's bytes from `k`'s offset on, in order |
| Bunkr.HappyPath | src/upload/bunkr.py:252-360 | a successful chunked upload sends every chunk once, in order, whose bytes make up the file, then one finish request, and returns the server's URL |
| Bunkr.SingleOutcome | src/upload/bunkr.py:214-250 | a URL only from a successful `200` reply; an exception exactly for a raised request or a `200` body that is not JSON |
| Bunkr.Precheck | src/upload/bunkr.py:393-401 | maintenance and a refused file give `None` before any request; otherwise the chunk count of the file |
| Bunkr.LookupsAppend | src/upload/bunkr.py:421 | appending a request adds one lookup exactly when it is a node lookup |
| Bunkr.ChunkRunLookups | src/upload/bunkr.py:252-380 | the chunk protocol sends no node lookup |
| Bunkr.ChunkRunOutcome | src/upload/bunkr.py:252-380 | one chunked try appends no lookup and returns a URL only from a finish reply |
| Bunkr.AttemptLog | src/upload/bunkr.py:407-410 | one try appends upload requests only and returns a URL only from its last reply |
| Bunkr.TriesWellBehaved | src/upload/bunkr.py:407-410 | every try of a file behaves that way, whatever URL and log it starts from |
| Bunkr.WholeRetries | src/upload/bunkr.py:412-421 | a failed try other than the last is followed by a node lookup and the next try at the URL it returned |
| Bunkr.WholeLookups | src/upload/bunkr.py:404-424 | the retry loop only appends and looks the node up at most twice |
| Bunkr.WholeErr | src/upload/bunkr.py:416-421 | an exception leaves the retry loop only from the node lookup of `refresh_url` |
| Bunkr.WholeUrl | src/upload/bunkr.py:412-413 | the loop returns `None` or a non-empty URL carried by the reply to its last request |
| Bunkr.FileOutcomeSkips | src/upload/bunkr.py:393-398 | in maintenance or for a refused file nothing is sent, the URL is unchanged and no URL is returned |
| Bunkr.FileOutcomeShape | src/upload/bunkr.py:382-426 | `upload_file` only appends and returns `None`, an exception, or a non-empty URL its last reply carried |
| Bunkr.JobShape | src/upload/bunkr.py:404-426 | the retry loop around one file's tries has that same shape |
| Bunkr.UploadsBehave | src/upload/bunkr.py:382-426 | `upload_file` has that shape for every file, URL and log |
| Bunkr.BatchStep | src/upload/bunkr.py:452-461 | each completed upload adds its URL when truthy and nothing otherwise |
| Bunkr.BatchCount | src/upload/bunkr.py:443-463 | `upload_files` only appends and returns at most one URL per file |
| Bunkr.BatchUrls | src/upload/bunkr.py:452-463 | every returned URL is non-empty and came in a reply of the server |
| Bunkr.Construction | src/upload/bunkr.py:93-132 | a raised or failed token check ends construction with its error or `Invalid API token.`; success exactly when all three replies arrive and the chunk size settles, and the size is `ChunkSizeFor` of the request (25000000 by default) |
| Bunkr.Connect | src/upload/bunkr.py:93-132 | builds a new uploader exactly when `Construction` succeeds, with its chunk size, the server's settings, the node's URL and no request sent |
| Bunkr.Uploader.constructor | src/upload/bunkr.py:93-104 | the uploader keeps the token, the settings, the chunk size and the URL, with no request sent |
| Bunkr.Uploader.RefreshUrl | src/upload/bunkr.py:134-139 | one node lookup; the URL becomes the reply's `url` when it parses, and an exception otherwise leaves it unchanged |
| Bunkr.Uploader.UploadSingleFile | src/upload/bunkr.py:198-250 | one whole-file request with the album header, and `SingleOutcome` of its reply |
| Bunkr.Uploader.FinishChunkUpload | src/upload/bunkr.py:332-368 | the finalize loop sends what `ChunkRun` from finalizing sends and returns its URL |
| Bunkr.Uploader.UploadChunk | src/upload/bunkr.py:269-379 | the retry loop of one chunk returns where the protocol returns, or hands over to the next chunk |
| Bunkr.Uploader.UploadChunkFile | src/upload/bunkr.py:252-380 | the whole chunk loop is `ChunkRun` from chunk 0 with a fresh `dzuuid` |
| Bunkr.Uploader.UploadAttempt | src/upload/bunkr.py:407-410 | one try is `Attempt`: single request for one chunk, the chunk protocol otherwise |
| Bunkr.Uploader.UploadTries | src/upload/bunkr.py:404-426 | the retry loop is `Whole` of the file's tries |
| Bunkr.Uploader.UploadFile | src/upload/bunkr.py:382-426 | the run is `FileOutcome` of the settings, chunk size, URL and log it starts from |
| Bunkr.Uploader.UploadFiles | src/upload/bunkr.py:428-463 | the URLs and log are `BatchRun` of `upload_file` over the files in completion order |
| Bunkr.Uploader.UploadNext | src/upload/bunkr.py:452-461 | one completed upload advances `BatchRun` by one file |
| Monitor.Keep | src/monitor.py:41 | the kept characters are all word characters or `-` |
| Monitor.SanitizeIsClean | src/monitor.py:40-42 | a sanitised name holds only `\w` and `-`, and neither starts nor ends with `-` or `_` |
| Monitor.KeepAppend | src/monitor.py:41 | the substitution works character by character: what it keeps of a concatenation is what it keeps of each part, in order |
| Monitor.KeepChar | src/monitor.py:41 | a single character is kept exactly when it is a word character or `-`; with `KeepAppend` this determines the result on every name |
| Monitor.KeepAllowed | src/monitor.py:41 | the substitution leaves a name of allowed characters unchanged |
| Monitor.SanitizeFixes | src/monitor.py:40-42 | sanitising leaves a name unchanged exactly when it is already clean |
| Monitor.SanitizeIdempotent | src/monitor.py:40-42 | sanitising twice is sanitising once |
| Monitor.StampOrdinary | src/monitor.py:88 | the `%Y%m%d_%H%M%S` stamp holds no `/` and no `.` |
| Monitor.RFindPast | src/monitor.py:153 | characters other than `c` after a string do not move its last `c` |
| Monitor.BasenameAfter | src/monitor.py:98 | after a directory part ending in `/`, a name without `/` is the base name |
| Monitor.SplitExtAfter | src/monitor.py:153 | after such a directory part, `<stem>.mp4` splits into the stem's path and `.mp4` |
| Monitor.StemOrdinary | src/monitor.py:88-93 | the sanitised name and stamp make a non-empty stem with no `/` and no `.` |
| Monitor.OutputPathParts | src/monitor.py:90-94 | the output path is a directory part ending in `/` followed by `<s>_<stamp>.mp4` |
| Monitor.OutputPathShape | src/monitor.py:88-98 | the recording's base name is `<s>_<stamp>.mp4` and its extension `.mp4`, whatever the output directory |
| Monitor.PathShape | src/monitor.py:98-153 | `<dir><stem>.mp4` has base name `<stem>.mp4` and extension `.mp4` |
| Monitor.ThumbnailUrl | src/monitor.py:182-187 | a link exactly when jpg5 or Bunkr delivered one; jpg5's is preferred, and the link is never empty |
| Monitor.Gofiles | src/monitor.py:209-212 | the GoFile group holds only GoFile uploads |
| Monitor.Others | src/monitor.py:209-212 | the other group holds no GoFile upload |
| Monitor.InsertGofile | src/monitor.py:209-212 | a key-0 upload goes after the GoFile group and before the others |
| Monitor.PartitionCounts | src/monitor.py:209-212 | the two groups together hold every upload exactly as often as the list |
| Monitor.GofileFirstPartition | src/monitor.py:209-212 | the stable sort puts the GoFile uploads first, then the others, each group in its original order |
| Monitor.GofileStep | src/monitor.py:209-212 | a GoFile upload at the end joins the end of the GoFile group |
| Monitor.GofileGroups | src/monitor.py:209-212 | a last GoFile upload extends only the GoFile group |
| Monitor.OtherStep | src/monitor.py:209-212 | another upload at the end joins the end of the whole list |
| Monitor.InsertOther | src/monitor.py:209-212 | a key-1 upload goes at the end of a sorted list |
| Monitor.OtherGroups | src/monitor.py:209-212 | a last other upload extends only the other group |
| Monitor.GofileFirstPermutes | src/monitor.py:209-212 | the sort neither loses nor repeats an upload |
| Monitor.AllLinksAppend | src/monitor.py:214-221 | the links of two runs of uploads are the links of each, in order |
| Monitor.EndMessageLinks | src/monitor.py:200-223 | the notice is its opening, one line per link with the GoFile uploads' links first, then the closing fence |
| Monitor.Numbered | src/monitor.py:240-241 | one report line per part |
| Monitor.NumberedAt | src/monitor.py:240-241 | the `i`-th part's line carries the number `k + i` and its URL |
| Monitor.EntriesNumbered | src/monitor.py:237-241 | a split upload's parts are listed as `<Service> 1:`, `<Service> 2:`, ..., one per URL |
| Monitor.Siblings | src/monitor.py:153-228 | the thumbnail and the link file replace the recording's `.mp4` by `.jpg` and `.txt` |
| Monitor.PostsThen | src/monitor.py:87-144 | posting `a` and then `b` queues `a + b` |
| Monitor.Decide | src/monitor.py:60-78 | a cancellation exits; a recording monitor skips; a live stream with a playback URL is recorded with that URL; a failed fetch is reported |
| Monitor.RunRounds | src/monitor.py:60-78 | the loop decides each round by `Decide`, runs until the polls are used up or the first cancellation, and stops there |
| Monitor.PollsOf | src/monitor.py:66 | one poll per round, in order |
| Monitor.StreamEndStops | src/monitor.py:142-155 | the end is always announced first and at most three messages are posted; a missing recording or a thumbnail that raised stops there, with only that announcement, nothing uploaded, written or shown, and the recording kept |
| Monitor.StreamEndNotices | src/monitor.py:142-198 | a finished end forgets the recording and shows "Stream ended"; with compression on, the shared UI first shows "Compressing video..." and the compression's success notice follows the end announcement exactly when compression succeeded; the upload notice is the last message exactly when uploads and notifications are on, so one to three messages in all |
| Monitor.StreamEndUploads | src/monitor.py:156-198 | the uploaded video is what `CompressVideo` hands on when compression is on and the recording otherwise; it goes to Bunkr then GoFile, the thumbnail to jpg5 then Bunkr, the results are listed in that order, and the link file sits beside the recording and is written exactly when uploads are on and the write succeeds; with uploads off nothing is uploaded or written |
| Monitor.UserMonitor.constructor | src/monitor.py:19-27 | nothing known, not recording, no UI, running |
| Monitor.UserMonitor.Initialize | src/monitor.py:29-38 | sets the name and UI, makes the two or three UI calls, and takes the user id or propagates what the fetch raised |
| Monitor.UserMonitor.UpdateUi | src/monitor.py:44-51 | one UI update when the UI is attached, and nothing else changes |
| Monitor.UserMonitor.Stop | src/monitor.py:53-54 | the monitor stops running, and nothing else changes |
| Monitor.UserMonitor.StartRecording | src/monitor.py:80-140 | nothing while recording; otherwise the cleanup, the cleanup and starting notices, the output path, the UI update and the ffmpeg command, recording exactly when ffmpeg launched |
| Monitor.UserMonitor.Begin | src/monitor.py:87-133 | the starting notice, the output path, the UI update and the ffmpeg command |
| Monitor.UserMonitor.Tidy | src/monitor.py:84-85 | the cleanup runs when configured, and its notice is posted when the sweep ran with the bot enabled |
| Monitor.UserMonitor.SendEndMessage | src/monitor.py:200-223 | posts `EndMessage` of the uploads and the thumbnail link |
| Monitor.UserMonitor.ComposeEndMessage | src/monitor.py:200-222 | the loop builds exactly `EndMessage` |
| Monitor.UserMonitor.AppendAllLinks | src/monitor.py:214-221 | the loop appends each upload's links, one line each |
| Monitor.UserMonitor.AppendLines | src/monitor.py:217-218 | appends each link and a newline |
| Monitor.UserMonitor.SaveUploadResults | src/monitor.py:225-251 | the link file beside the recording gets `ReportText` when a recording is current and the write succeeds; otherwise no file changes |
| Monitor.UserMonitor.HandleStreamEnd | src/monitor.py:142-198 | stops recording, and posts, uploads, calls the shared and the monitor's UI, writes and forgets the recording as `StreamEnded` says |
| Monitor.UserMonitor.Conclude | src/monitor.py:148-198 | the part after the announcement, for an existing recording: a thumbnail that raised stops with that error and nothing else changes; otherwise it follows `Found` |
| Monitor.UserMonitor.Finish | src/monitor.py:156-198 | the part after the thumbnail follows `Finished`: the compression's UI call and notice, then the uploads, and the recording is forgotten |
| Monitor.UserMonitor.Compress | src/monitor.py:156-157 | shows "Compressing video..." on the shared UI, hands on the path `CompressVideo` returns and posts its success notice exactly when it notified |
| Monitor.UserMonitor.Publish | src/monitor.py:159-196 | the uploads, the notice and the link file follow `Finished` |
| Monitor.UserMonitor.UploadAll | src/monitor.py:159-187 | the video results are listed Bunkr then GoFile when there is a video, and the thumbnail link is `ThumbnailUrl` of its two uploads |
| Monitor.UserMonitor.StartMonitoring | src/monitor.py:56-78 | refuses a monitor without a user id; otherwise the rounds follow `Run` and the monitor stops exactly at a cancellation |
| Monitor.UserMonitor.PollLoop | src/monitor.py:60-78 | the loop's actions are `Run` of the polls, and it stops running exactly after a cancellation |
| Monitor.UserMonitor.PollRound | src/monitor.py:61-78 | one round acts as `Decide` says, and only a cancellation stops the monitor |
| Clock.FileStampShape | src/monitor.py:88 | every file stamp is fifteen characters with the `_` at index 8 |
| Clock.FileStampInjective | src/monitor.py:88 | two different instants, to the second, never share a stamp |
| Paths.Basename | src/monitor.py:98 | the base name holds no `/` and ends the path |
| Paths.SplitExt | src/monitor.py:153 | root and extension put together are the path; the extension is empty or one dot followed by neither `.` nor `/` |
| Paths.SplitExtHasExt | src/monitor.py:153 | an extension is split off exactly when the last name has a `.` with no later `.`, preceded by some character other than `.` after the last `/`; a name of leading dots only gives none |

## Left out

- Network, file system, subprocesses, OpenCV, PIL and the clock are oracle parameters. Their
  real behaviour is not modelled.
- Concurrency:
  - The asyncio tasks and the Discord bot's thread are modelled as sequential steps.
  - `ThreadPoolExecutor` in `upload_files` is modelled as a completion order `order`. With one
    worker this is the file order.
  - The `ProcessPoolExecutor` of `extract_frames` runs its batch sequentially.
  - The end-of-stream task runs to completion inside its round.
- Floating point is modelled as exact reals.
- Gigabyte conversions are modelled this way:
  - Video's split bound is given in bytes.
  - The size-reduction percentage that `compress_video` posts in its Discord notice is a
    parameter (`CompressFs.reduction`): its float rendering is not modelled.
- Thumbnail frame choice: frame rate, `linspace` indices and the 2% margin are not modelled.
  Frame indices come from a `spacing` parameter.
- Pixels and font metrics: an image is its size and identity; text width is a `textLength`
  parameter.
- `get_video_duration` is not part of this model (ffprobe output parsing).
- `get_user_output_directory` is not modelled: it creates directories and reads the base path.
- `get_cleanup_settings` is not modelled: it parses floats. Its values are a parameter of
  `Config.GetAllSettings`.
- `load_config` is not modelled (YAML parsing).
- Rich rendering of the UI table is not modelled. UI calls are kept as a log.
  The shared `UI` object and the monitor's `self.ui` are the same object, so one log holds both.
  The call `compress_video` makes is logged whether or not `initialize` attached the UI.
- Print and logging output is not modelled.
- `os.makedirs` is not modelled.
- Windows: the drive-letter branch of `check_disk_space_and_cleanup` is not modelled. Paths are
  POSIX.
- Cleanup: the exact text of the cleanup notification is a parameter.
- Cleanup: `shutil.disk_usage` (`src/video/cleanup.py:32`) and the `os.path.getctime` of the sort
  key (`src/video/cleanup.py:47`) are taken not to raise. A candidate that vanishes between the
  listing and the sort would end the check in the outer `except` before any removal and with no
  notice. Only a `getsize` failure during eviction (`Aborted`) is modelled.
- GoFile.UploadRequestFor: the error for a file that does not open is the schematic text
  `No such file or directory`. Python's message also carries `[Errno 2]` and the quoted path, and
  that text reaches the `error` field of the upload record.
- Jpg5: the command-line `main` is not modelled. Its call at `src/upload/jpg5.py:222` passes four
  positional arguments to a three-parameter function. That raises `TypeError`, which the `except`
  of `main` catches (`src/upload/jpg5.py:232`).
- `main.py` is not part of this model: it starts the monitors with a stagger and shuts them down.
- Bunkr: the album endpoints and `upload_directory` are not modelled. Only the upload path is part
  of this model.
- GoFile: endpoints other than the account check, the server list and the upload are not
  modelled. In `verify_uploaders`, `checkApi` appears only as an oracle saying whether it raised.
- Fansly: the endpoint strings of `fetch_user_data` are not modelled. `Fansly.FetchApi` models the
  request it makes.
- Discord: the wait loop of `start` is not modelled (it polls a thread flag).
- Regular expressions: `\w` is taken on ASCII only.
- Strings.ParseInt: `int()` is taken on ASCII digits only. Python also accepts `_` between digits
  (`1_0`) and non-ASCII decimal digits; the model rejects both.
- Bunkr: a request sent while the upload URL is still `None` gets a reply from the network
  parameter. The `requests` library would raise `MissingSchema` before sending it.
- Video.CompressVideo: the output directory is created with `os.makedirs` outside the `try`. For an
  input with no directory part that call raises; recordings always lie in a directory, so this
  is not modelled.
- Monitor.UserMonitor.StartRecording: requires a username. With `None`, the source would send a
  message naming `None` and then raise in `sanitize_username`; that path is not modelled.
- Monitor.UserMonitor.StartMonitoring: only the round decisions and the flags are modelled. The
  sleep between rounds is not.
- Config.GetAllSettings: states the invariants of a finished questionnaire, that its users are
  `UsersIn(replies)` and that running out of replies gives `EOFError`. It does not state at which
  reply each later question starts, nor tie each flag to its own reply. Those ties are stated by
  `Config.GetBooleanSetting` and the other per-question members, each from a given position.
- Strings.Lower: case mapping is ASCII only (`A`-`Z` and `a`-`z`). Python's `str.lower` and
  `str.capitalize` map every Unicode letter. This reaches the extension and content-type checks of
  the jpg5 upload (`Jpg5`) and `Config.ParseBool`: a non-ASCII capital letter there is kept as it is.
- Fansly.FetchApi: the error after the last 429 is the schematic text
  `429, message='Too Many Requests'`. aiohttp's message also carries `url='…'`.

## Findings

| source | as written | input that shows it | evidently intended | confidence | as-written member | corrected member |
|---|---|---|---|---|---|---|
| src/upload/upload.py:54-56 | the Bunkr branch compares the file size with `uploader.max_file_size`, an attribute `BunkrUploader` never sets, so every Bunkr upload ends in the caught `AttributeError` and is reported failed | any verified Bunkr upload of an existing file | a maximum file size for the uploader, with larger files split and uploaded in parts | high, not executed | Upload.BunkrAsWritten | Upload.BunkrLimitRule |
