# mediaforge task lifecycle, modelled in Dafny

mediaforge is a media service. An HTTP server takes an uploaded image or PDF and stores the
original in a cloud storage service. It enqueues a job for a worker and creates a task
record in Redis. Six worker routines carry out the jobs: image compress, resize and convert,
and PDF compress, merge and extract page ranges. Clients poll the task record, cancel tasks,
list them, and sweep stored files that no waiting task still needs.

This project models that task-record lifecycle:

- **Store.** The Redis hash per task id is a `Fields` value with one optional string per
  field. HSET is a fieldwise merge (`Records.Merge`). Redis itself is the `Records.RecordStore`
  class, which keeps the keyspace and a ghost log of every HSET.
- **Worker writes.** Every worker routine writes through a `Lifecycle.TaskReporter`. It writes
  `processing`/10 first, then progress-only checkpoints, then exactly one terminal write:
  `completed` with the result, or `failed` with the error.
- **Worker routines.** Each routine has a pure reference function (`ExtractRun`, `MergeRun`, …).
  It gives the writes and the outcome of one run, given what the routine's collaborators answer
  (download, codec, upload). The imperative method (`ExtractPdfPagesTask`, …) follows the
  source's try/except step by step. It is proved to leave exactly the keyspace and log that
  the reference function describes.
- **Lemmas on the run functions.** They state the schedule each run follows, that progress
  only rises, the record each run leaves behind, and the routine-specific results: the page
  range extracted, pages merged in source order, the settings chosen, the save format and
  mode.
- **Server.** The handlers are module-level methods over the store, a `Server.Broker` (send
  and revoke) and a `Server.Cloud` (the storage service, with a log of every upload it was
  asked for). This mirrors the module-level clients in `server/main.py`. Validation is a set of pure check functions. Progress and cancel are
  projections of a record. Listing and cleanup are loops over the keys the store returns.

Collaborators with no verifiable semantics are function-valued parameters: HTTP download,
cloud upload and admin listing, the PDF and image codecs, the broker's refusal of a message,
and the fresh uuid4. Each is bundled in a datatype or held in a class constant.

The model follows the code. These behaviours of the code are each a proved lemma:

- A cancelled task can be cancelled again (`TaskStatus.CancelAcceptedTwice`).
- A worker overwrites `cancelled` (`Lifecycle.CancelledIsOverwritten`).
- A failure keeps a stale `result_url`, and a success keeps a stale `error`
  (`TaskStatus.SettledProgress`).
- Cleanup preserves `queued`/`in_progress` records, but no writer ever writes
  `in_progress` or `file_url`. So no record the system writes is ever preserved
  (`Cleanup.WrittenRecordsNotPreserved`).
- The server enqueues the job before it writes the queued record. A refused enqueue
  therefore writes nothing (`Server.CreateTask`).
- The server uploads before it enqueues. A refused enqueue leaves the uploaded original
  stored, and a refused merge leaves every source uploaded before the failure stored
  (`Server.CreateTask`, `Server.RefusedMergeLeavesUploads`).

## Model

| member | source | states |
|---|---|---|
| Text.Lower | server/main.py:138 | str.lower: same length, each character mapped to its lower-case form |
| Text.Upper | worker/image/convert.py:39 | str.upper: same length, each character mapped to its upper-case form |
| Text.CountChar | server/main.py:285 | key.count('-'): exactly the number of occurrences of the character, so 0 exactly when it does not occur |
| Text.NatToString | worker/pdf/extract.py:84 | str() of a non-negative int: a non-empty string of decimal digits |
| Text.IntToString | worker/pdf/extract.py:44-45 | str() of any int: a negative value is '-' followed by the digits of its magnitude |
| Text.ParseNatToString | worker/pdf/extract.py:36 | the progress string a worker writes reads back as the number it encodes |
| Text.CheckpointTexts | worker/pdf/extract.py:30-82 | the decimal renderings of every checkpoint value are exactly the literals the routines write |
| Records.Lookup | server/main.py:242-243 | HGETALL returns the stored hash, or the empty hash for a missing key |
| Records.Merge | server/main.py:274 | HSET: every field the mapping lists takes its value, every other field keeps its old one |
| Records.FieldOr | server/main.py:249 | dict.get with a default: the value when present, the default otherwise |
| Records.RecordStore.HGetAll | server/main.py:242 | the hash stored under the key, or the empty hash for a missing key |
| Records.RecordStore.HSet | server/main.py:67 | updates only the written key, by Merge, and appends the call to the log |
| Records.MergeIdempotent | server/main.py:274 | repeating the same HSET changes nothing, as when a task is cancelled twice |
| Records.MergeAssociative | worker/pdf/extract.py:30-36 | two successive HSETs equal one HSET of the first mapping overridden by the second |
| Records.MergeShadowed | worker/pdf/extract.py:80-85 | a later HSET that covers every field of an earlier one makes the earlier one invisible |
| Lifecycle.Settled | worker/pdf/extract.py:80-95 | the record a run leaves has status completed on return and failed on raise |
| Lifecycle.Render | worker/pdf/extract.py:30-95 | the start write sets processing at 10; a checkpoint writes the progress alone; completion sets completed, 100 and the url over the extra fields; a failure sets failed and the error and leaves the progress alone |
| Lifecycle.TaskReporter.constructor | worker/pdf/extract.py:25-27 | a routine starts with nothing written to its record |
| Lifecycle.TaskReporter.MarkProcessing | worker/pdf/extract.py:30 | the start write leaves processing at 10 and logs one HSET |
| Lifecycle.TaskReporter.SetProgress | worker/pdf/extract.py:36 | a checkpoint write is the next value of the schedule; the record stays processing at that value |
| Lifecycle.TaskReporter.MarkCompleted | worker/pdf/extract.py:80-85 | after every checkpoint, the run ends as Finished with the url and the extra fields |
| Lifecycle.TaskReporter.MarkFailed | worker/pdf/extract.py:90-95 | from any point of the schedule, the run ends as Stopped there with the error |
| Lifecycle.StoppedFollows | worker/pdf/extract.py:90-96 | a run that raises after k checkpoints is well formed and wrote 10 followed by the first k checkpoints |
| Lifecycle.FinishedFollows | worker/pdf/extract.py:80-88 | a run that completes is well formed and wrote 10, the whole schedule, then 100 |
| Lifecycle.StoppedRecord | worker/pdf/extract.py:92-95 | a run stopped after k checkpoints leaves failed, the error, and the k-th progress value |
| Lifecycle.CheckpointStep | worker/pdf/extract.py:47 | a checkpoint over a processing record leaves processing at the new value |
| Lifecycle.CompleteStep | worker/pdf/extract.py:80-85 | the completion write hides every earlier progress write |
| Lifecycle.FailStep | worker/pdf/extract.py:92-95 | the failure write keeps the last progress value and adds status failed and the error |
| Lifecycle.ApplyProgressing | worker/pdf/extract.py:30-70 | the start write plus any checkpoints leave processing at the last progress written |
| Lifecycle.SettledRecord | worker/pdf/extract.py:80-95 | replaying any well-formed run's writes gives its settled record |
| Lifecycle.CancelledIsOverwritten | server/main.py:274 | a cancelled status never survives a run; a run always ends completed or failed |
| Lifecycle.FailureKeepsFields | worker/pdf/extract.py:92-95 | a failed run leaves every field other than status, progress and error as it found it, result_url included |
| Lifecycle.FollowsIncreasing | worker/pdf/extract.py:30-82 | a run following a strictly increasing schedule writes strictly increasing progress |
| Lifecycle.FollowsNonDecreasing | worker/pdf/merge.py:30-79 | a run following a non-decreasing schedule writes non-decreasing progress |
| Media.Converted | worker/image/convert.py:40 | Image.convert changes the mode only |
| Media.Resized | worker/image/resize.py:45 | Image.resize gives exactly the requested size and keeps the mode |
| PdfExtract.PageRangeOk | worker/pdf/extract.py:43 | the range is accepted exactly when 1 <= start <= end <= total pages |
| PdfExtract.InvalidRange | worker/pdf/extract.py:44-45 | the range error names the page count first and ends with the requested range as start-end |
| PdfExtract.ExtractedPages | worker/pdf/extract.py:84 | the extra completion field is extracted_pages, holding "start-end", and nothing else |
| PdfExtract.ExtractPages | worker/pdf/extract.py:53-57 | the copy loop yields exactly pages start..end in order, one per page |
| PdfExtract.ExtractRun | worker/pdf/extract.py:27-96 | a failed download writes only the start and the failure; a bad range of the parsed document raises the range message; a run returns exactly the url of that upload when the download, parse, range check, save of the pages start..end and upload all succeed, and only then |
| PdfExtract.ExtractPdfPagesTask | worker/pdf/extract.py:25-96 | the store and log end as ExtractRun describes, and the outcome is its outcome |
| PdfExtract.ExtractAttempt | worker/pdf/extract.py:27-88 | the try block either raises at a schedule point ExtractRun names or completes exactly as ExtractRun |
| PdfExtract.ExtractRunFollows | worker/pdf/extract.py:30-85 | every run follows 10, 30, 50, 75, 90, 100, and completion writes extracted_pages |
| PdfExtract.ExtractProgressIncreases | worker/pdf/extract.py:30-82 | the progress values written strictly increase |
| PdfExtract.ScheduleIncreasing | worker/pdf/extract.py:36-70 | the extract checkpoints strictly increase between 10 and 100 |
| PdfExtract.BadRangeFailsAfterDownload | worker/pdf/extract.py:36-45 | a bad range fails after the 30 write, with the range message, and the task is left failed at 30 |
| PdfMerge.MergeProgress | worker/pdf/merge.py:38-56 | each per-source checkpoint lies in 10..80, and the last one is exactly 80 |
| PdfMerge.MergeProgressMonotone | worker/pdf/merge.py:55-56 | per-source checkpoints never fall back |
| PdfMerge.MergeProgressCanRepeatStart | worker/pdf/merge.py:39-56 | with 71 sources the first checkpoint is 10 again, because of truncation |
| PdfMerge.MergeSchedule | worker/pdf/merge.py:41-67 | n per-source checkpoints, then 85 and 90 |
| PdfMerge.Gather | worker/pdf/merge.py:41-52 | the loop breaks at the first source that fails to load; it gathers pages exactly when all load |
| PdfMerge.GatherPageCount | worker/pdf/merge.py:50 | the merged document has the sum of the sources' page counts |
| PdfMerge.GatherKeepsOrder | worker/pdf/merge.py:41-50 | each source's pages appear contiguously, after those of the sources before it |
| PdfMerge.GatherStaysBroken | worker/pdf/merge.py:43-47 | once a source has failed, later sources change nothing |
| PdfMerge.BrokeAt | worker/pdf/merge.py:41-47 | a failure at source i stops the run after i per-source checkpoints |
| PdfMerge.MergeRun | worker/pdf/merge.py:27-92 | fewer than two sources write only the start and the fixed failure; a run returns exactly the url of that upload when there are at least two sources, all of them load, and the save of every source's pages and the upload succeed, and only then |
| PdfMerge.MergePdfTask | worker/pdf/merge.py:25-92 | the store and log end as MergeRun describes, and the outcome is its outcome |
| PdfMerge.MergeAttempt | worker/pdf/merge.py:27-84 | the try block either raises at a schedule point MergeRun names or completes exactly as MergeRun |
| PdfMerge.MergeRunFollows | worker/pdf/merge.py:30-81 | every run follows its schedule, and progress never moves back |
| PdfMerge.ScheduleNonDecreasing | worker/pdf/merge.py:55-67 | the full merge schedule 10, per-source values, 85, 90, 100 is non-decreasing |
| PdfMerge.CompletedMergeSavedAllPages | worker/pdf/merge.py:41-84 | a completed merge had at least two sources, loaded them all, and saved every page |
| PdfMerge.TooFewSourcesFails | worker/pdf/merge.py:30-33 | fewer than two sources fail right after the start write, with the fixed message, leaving failed at 10 |
| PdfCompress.SettingsFor | worker/pdf/compress.py:45-51 | a known level's settings, any other level gets medium's |
| PdfCompress.SettingsFacts | worker/pdf/compress.py:45-51 | images and fonts always deflated, deflate rises low < medium < high, only high collects garbage (4) |
| PdfCompress.CompressPdfRun | worker/pdf/compress.py:28-87 | a failed download writes only the start and the failure; a run returns exactly the url of that upload when the download, parse, save of the whole document with the level's settings and upload all succeed, and only then |
| PdfCompress.CompressPdfTask | worker/pdf/compress.py:26-87 | the store and log end as CompressPdfRun describes, and the outcome is its outcome |
| PdfCompress.CompressPdfAttempt | worker/pdf/compress.py:28-79 | the try block either raises at a schedule point CompressPdfRun names or completes exactly as CompressPdfRun |
| PdfCompress.CompressPdfRunFollows | worker/pdf/compress.py:31-76 | every run follows 10, 30, 50, 70, 85, 100 |
| PdfCompress.CompressPdfProgressIncreases | worker/pdf/compress.py:31-74 | the progress values written strictly increase |
| PdfCompress.ScheduleIncreasing | worker/pdf/compress.py:37-62 | the compress checkpoints strictly increase between 10 and 100 |
| PdfCompress.CompressSavesWithLevel | worker/pdf/compress.py:45-70 | a completed run saved with images and fonts deflated and garbage collection exactly for high; an unknown level runs exactly as medium does |
| ImageResize.SaveFormat | worker/image/resize.py:51 | the original format when it is non-empty, PNG otherwise; never empty |
| ImageResize.ResizeOptions | worker/image/resize.py:53-56 | the save format, plus quality 95 and optimize exactly for JPEG |
| ImageResize.Fitted | worker/image/resize.py:42-45 | without the aspect ratio, exactly the requested size in the same mode; with it, the library's thumbnail |
| ImageResize.ForSave | worker/image/resize.py:54-58 | a JPEG save of RGBA or P gets exactly the RGB conversion; any other picture is untouched |
| ImageResize.ResizeImageTask | worker/image/resize.py:22-87 | the store and log end as ResizeRun describes, and the outcome is its outcome |
| ImageResize.ResizeRun | worker/image/resize.py:24-39 | a failed download writes only the start and the failure; a run returns only after the download and decode, and once both succeed the rest of the run is exactly the decoded-picture run |
| ImageResize.ResizeDecoded | worker/image/resize.py:41-79 | the run returns exactly when the save and its upload succeed, and then returns the upload's url |
| ImageResize.ResizeAttempt | worker/image/resize.py:24-39 | the try block up to the 50 write, then ResizeDecodedAttempt; overall as ResizeRun |
| ImageResize.ResizeDecodedAttempt | worker/image/resize.py:41-79 | from the decoded picture, raises where ResizeDecoded does or completes exactly as it |
| ImageResize.ResizeRunFollows | worker/image/resize.py:27-76 | every run follows 10, 30, 50, 70, 85, 100 |
| ImageResize.ResizeDecodedFollows | worker/image/resize.py:41-76 | from the decoded picture, the rest of every run follows the same schedule |
| ImageResize.ResizeProgressIncreases | worker/image/resize.py:27-74 | the progress values written strictly increase |
| ImageResize.ScheduleIncreasing | worker/image/resize.py:33-63 | the resize checkpoints strictly increase between 10 and 100 |
| ImageResize.ResizedOutput | worker/image/resize.py:42-69 | without the aspect ratio the saved size is exact; a JPEG has no alpha or palette; no format means PNG and "png" |
| ImageResize.CompletedResizeUpload | worker/image/resize.py:51-70 | a completed run saved the fitted, save-ready picture in the save format and uploaded it under that format lower-cased |
| ImageConvert.TargetMode | worker/image/convert.py:39-42 | JPEG of RGBA/P becomes RGB and JPEG of any other mode keeps it; PNG becomes RGBA; any other target keeps the mode |
| ImageConvert.Adapted | worker/image/convert.py:39-42 | the picture is exactly converted to TargetMode's mode when that differs, keeps its size, and is untouched when the mode stays |
| ImageConvert.ConvertOptions | worker/image/convert.py:48-52 | format is the upper-cased target; quality 95 and optimize exactly for JPEG |
| ImageConvert.ConvertImageTask | worker/image/convert.py:22-81 | the store and log end as ConvertRun describes, and the outcome is its outcome |
| ImageConvert.ConvertRun | worker/image/convert.py:24-36 | a failed download writes only the start and the failure; a run returns only after the download and decode, and once both succeed the rest of the run is exactly the decoded-picture run |
| ImageConvert.ConvertDecoded | worker/image/convert.py:38-73 | the run returns exactly when the save and its upload succeed, and then returns the upload's url |
| ImageConvert.ConvertAttempt | worker/image/convert.py:24-36 | the try block up to the decode, then ConvertDecodedAttempt; overall as ConvertRun |
| ImageConvert.ConvertDecodedAttempt | worker/image/convert.py:38-73 | from the decoded picture, raises where ConvertDecoded does or completes exactly as it |
| ImageConvert.ConvertRunFollows | worker/image/convert.py:27-70 | every run follows 10, 30, 60, 80, 100 |
| ImageConvert.ConvertDecodedFollows | worker/image/convert.py:38-70 | from the decoded picture, the rest of every run follows the same schedule |
| ImageConvert.ConvertProgressIncreases | worker/image/convert.py:27-68 | the progress values written strictly increase |
| ImageConvert.ScheduleIncreasing | worker/image/convert.py:33-57 | the convert checkpoints strictly increase between 10 and 100 |
| ImageConvert.TargetCaseInsensitive | worker/image/convert.py:39-52 | "jpeg" and "JPEG" convert alike (RGB-safe, quality 95); "png" yields RGBA with no quality |
| ImageConvert.JpgIsNotJpeg | worker/image/convert.py:39-52 | the accepted target "jpg" triggers neither the mode rule nor the JPEG options: saved as "JPG" untouched |
| ImageCompress.JpegReady | worker/image/compress.py:41-42 | RGBA or P becomes exactly the RGB conversion; any other picture is untouched; the size is kept |
| ImageCompress.CompressOptions | worker/image/compress.py:48 | JPEG at the requested quality, optimised |
| ImageCompress.CompressImageTask | worker/image/compress.py:23-76 | the store and log end as CompressImageRun describes, and the outcome is its outcome |
| ImageCompress.CompressImageRun | worker/image/compress.py:25-38 | a failed download writes only the start and the failure; a run returns only after the download and decode, and once both succeed the rest of the run is exactly the decoded-picture run |
| ImageCompress.CompressDecoded | worker/image/compress.py:40-68 | the run returns exactly when the save and its upload succeed, and then returns the upload's url |
| ImageCompress.CompressImageAttempt | worker/image/compress.py:25-38 | the try block up to the decode, then CompressDecodedAttempt; overall as CompressImageRun |
| ImageCompress.CompressDecodedAttempt | worker/image/compress.py:40-68 | from the decoded picture, raises where CompressDecoded does or completes exactly as it |
| ImageCompress.CompressImageRunFollows | worker/image/compress.py:29-65 | every run follows 10, 30, 50, 70, 100 |
| ImageCompress.CompressDecodedFollows | worker/image/compress.py:40-65 | from the decoded picture, the rest of every run follows the same schedule |
| ImageCompress.CompressImageProgressIncreases | worker/image/compress.py:29-63 | the progress values written strictly increase |
| ImageCompress.ScheduleIncreasing | worker/image/compress.py:35-51 | the image compress checkpoints strictly increase between 10 and 100 |
| ImageCompress.CompressedAsJpeg | worker/image/compress.py:38-58 | a completed run saved an RGB-compatible JPEG at exactly the requested quality and uploaded it as "jpg" |
| Validation.CheckCompressImage | server/main.py:90-94 | accepted exactly for an image/* type with quality in 1..100; a non-image is rejected first, each with its 400 text |
| Validation.CheckResize | server/main.py:112-116 | accepted exactly for an image/* type with positive width and height; each refusal its 400 text |
| Validation.CheckConvert | server/main.py:134-142 | accepted exactly for an image/* type whose lower-cased target is one of the seven formats |
| Validation.CheckCompressPdf | server/main.py:159-167 | accepted exactly for application/pdf with a level of low, medium or high |
| Validation.CheckExtract | server/main.py:226-227 | accepted exactly for application/pdf; the page range is not checked |
| Validation.CheckMerge | server/main.py:180-186 | accepted exactly for at least two files, all application/pdf; the count is checked first |
| Validation.PdfIsNotAnImage | server/main.py:159 | a PDF is never accepted as an image, and the PDF type match is case sensitive |
| TaskStatus.ProgressOf | server/main.py:242-256 | unknown exactly for an empty hash; otherwise status, progress defaulting to "0", result_url and error when present |
| TaskStatus.ProgressIgnoresOtherFields | server/main.py:247-254 | file_url and extracted_pages never affect the progress reply |
| TaskStatus.CancelGuard | server/main.py:261-268 | 404 for an empty hash, 400 for completed or failed, accepted otherwise |
| TaskStatus.CancelOnlyTouchesStatus | server/main.py:274 | a cancel sets status to cancelled and changes no other field |
| TaskStatus.CancelAcceptedTwice | server/main.py:266-274 | a cancelled task passes the guard again, and the second write leaves the hash as the first left it |
| TaskStatus.SubmittedProgress | server/main.py:67 | a fresh submission reads back as queued at "0", with no result and no error, and is cancellable |
| TaskStatus.RunningProgress | worker/pdf/extract.py:30-70 | a running task reads back as processing at the last progress written, and is cancellable |
| TaskStatus.SettledProgress | worker/pdf/extract.py:80-95 | after a run: completed at 100 with the url, or failed with the error and a stale result_url; no longer cancellable |
| Listing.UuidKeys | server/main.py:285 | keeps exactly the keys of length 36 with four dashes |
| Listing.UuidKeysKeepOrder | server/main.py:285 | the filter keeps the store's order |
| Listing.Window | server/main.py:289 | the slice [offset:offset+limit], clamped to the end, element by element |
| Listing.Summary | server/main.py:295-299 | task id, status defaulting to "unknown", progress defaulting to "0" |
| Listing.Summaries | server/main.py:291-299 | a summary for every id whose hash is non-empty, and only for such ids, each built from that id's hash; never more entries than ids |
| Listing.SummariesKeepOrder | server/main.py:291-299 | two entries of the list come from ids in the same order in the input |
| Listing.WindowKeepsOrder | server/main.py:285-289 | two keys of a page come from the store's listing in the same order |
| Listing.PageOnePerTask | server/main.py:283-299 | when the store lists each key once, no task appears twice on a page, and the page keeps the store's order |
| Listing.ListTasks | server/main.py:278-306 | the page is the summaries of the window of UUID-shaped keys, with the total of all of them, and the given limit and offset |
| Listing.PageFacts | server/main.py:285-299 | a page holds at most limit entries, each a UUID-shaped listed key with a record |
| Listing.PagesTile | server/main.py:289 | consecutive pages neither overlap nor leave a gap |
| Cleanup.PreservedUrl | server/main.py:326-331 | a locator is kept exactly for a queued or in_progress record whose file_url or result_url is non-empty, file_url first |
| Cleanup.Preserved | server/main.py:324-331 | urls_to_preserve: the locators the listed tasks' records ask to keep, task by task (see PreservedMembers) |
| Cleanup.PreservedAtMostOnePerTask | server/main.py:324-331 | each listed task contributes at most one preserved locator |
| Cleanup.PreservedStep | server/main.py:324-331 | one more task id adds exactly the locator its own record asks to keep, if any |
| Cleanup.PreservedMembers | server/main.py:324-331 | the preserved set is exactly the locators some listed task asks to keep |
| Cleanup.DoomedMembers | server/main.py:339-342 | a listed resource is destroyed exactly when its locator is not preserved |
| Cleanup.SweptMembers | server/main.py:336-350 | over all folders of one type, the destroyed resources are exactly the listed unpreserved ones |
| Cleanup.Assets.Destroy | server/main.py:341 | one destroy call is recorded with the id and resource type |
| Cleanup.CollectPreserved | server/main.py:322-331 | the loop computes the preserved set |
| Cleanup.SweepFolder | server/main.py:339-342 | destroys and reports the unpreserved resources of one listing, in listing order |
| Cleanup.SweepFolders | server/main.py:336-342 | destroys and reports the unpreserved resources of every folder, folder by folder |
| Cleanup.CleanupCloudinary | server/main.py:311-356 | preserved set over the UUID keys; image folders then raw folders, each destroyed with its type and reported in order |
| Cleanup.DeleteRule | server/main.py:340-342 | no preserved locator is destroyed, and every listed unpreserved resource is destroyed and reported |
| Cleanup.WrittenRecordsNotPreserved | server/main.py:330 | no record the server or a worker writes (queued, processing, settled, cancelled) is ever preserved |
| Server.Broker.SendTask | server/main.py:57-64 | enqueues the message unless the broker refuses it, and then raises |
| Server.Broker.Revoke | server/main.py:271 | records the revoke and sends nothing |
| Server.ResourceType | server/main.py:46 | raw exactly for application/pdf, auto otherwise |
| Server.Cloud.Upload | server/main.py:49-53 | the storage service's answer, and the call is recorded whether or not it succeeds |
| Server.Submission | server/main.py:38-72 | an accepted job names its routine, the id and the upload's locator, uploaded raw exactly for a PDF; a failed upload is its 500; a successful upload the broker accepts gives exactly that job; every refusal is a 500 |
| Server.OriginalsTried | server/main.py:38-53 | a submit handler attempts no upload when a check refuses, exactly one original upload otherwise |
| Server.CreateTask | server/main.py:38-72 | upload, then send, then the queued write; any failure is a 500 with nothing written or sent; the one upload is recorded even when the send is refused; a fresh id's record is exactly queued/0 |
| Server.CompressImage | server/main.py:87-102 | the check, then create_task with the quality job; no upload when the check refuses |
| Server.ResizeImage | server/main.py:104-126 | the check, then create_task with the width, height and aspect flag; no upload when the check refuses |
| Server.ConvertImage | server/main.py:128-150 | the check, then create_task with the lower-cased target; no upload when the check refuses |
| Server.CompressPdf | server/main.py:153-175 | the check, then create_task with the level; no upload when the check refuses |
| Server.ExtractPdfPages | server/main.py:219-236 | the check, then create_task with the page range unchecked; no upload when the check refuses |
| Server.UploadAll | server/main.py:192-200 | one locator per file, each that file's raw upload, in order |
| Server.UploadAllStopsAt | server/main.py:193-200 | the first failing upload ends the loop with its error, and no later upload is attempted |
| Server.UploadsTried | server/main.py:193-200 | the uploads attempted, in file order, up to and including the first that fails: all of them when none fails |
| Server.MergeSubmission | server/main.py:190-217 | an accepted merge carries the id and one locator per file, each that file's upload, in order; a failed upload is its 500; when every upload succeeds and the broker accepts, exactly that merge is sent; every refusal is a 500 |
| Server.UploadSources | server/main.py:192-200 | the loop's result is UploadAll's, and exactly the uploads UploadsTried names are recorded |
| Server.MergePdfs | server/main.py:177-217 | the check, the upload loop, one send with all locators, then the queued write; failures are 500s with nothing written; no upload when a check refuses, otherwise the tried uploads are recorded |
| Server.RefusedMergeLeavesUploads | server/main.py:190-217 | a merge refused after its checks tried at least one upload and every tried upload but the last succeeded; a refused send follows the uploads of all files |
| Server.MergeSourcesInOrder | server/main.py:180-209 | an accepted merge had at least two files and carries their uploads' locators in input order |
| Server.CancelTask | server/main.py:258-276 | a guard refusal changes nothing; otherwise revoke, then set only the status to cancelled |

## Left out

- The FastAPI application is not modelled: CORS, form and file parsing, the `/` and `/health` endpoints, and async scheduling. The handlers are methods called with already-parsed arguments.
- Cloud storage, HTTP downloads, the broker and the PDF and image codecs are oracles passed in as functions. Their internals, and the bytes and pixels they produce, are not modelled.
- The uuid4 task id is a parameter. Freshness appears only as the hypothesis of `Server.CreateTask`'s second ensures.
- KEYS * is the `keys` parameter of `Listing.ListTasks` and `Cleanup.CleanupCloudinary`. The store's enumeration order is whatever that sequence says.
- Listing.ListTasks: `limit` and `offset` are natural numbers. Python's negative-index slicing for negative query values is not modelled.
- The 500 replies of list_tasks and cleanup_cloudinary (server/main.py:308-309 and 358-359) are not modelled, because the store and the admin listing and destroy calls are taken to succeed.
- Cleanup.Assets: the admin listing returns one page (max_results=500). Resources beyond the first page are not modelled, and neither is the `invalidate` flag.
- Server.Broker.Revoke: revocation is only recorded. Terminating a running worker, and races between a cancel and a running job, are not modelled; the lemmas about the record after a run cover the run-after-cancel order.
- Concurrency is not modelled: interleaved requests, two workers on one task, and Redis failures.
- The hash has a closed set of six fields: status, progress, result_url, error, file_url, extracted_pages. No code path writes any other field.
- PdfMerge.MergeProgress: the source computes `10 + (i + 1) * (70 / n)` in floating point and then truncates. The model uses integer floor of `(i + 1) * 70 / n`. The two can differ by one where the float sum falls just below an integer. For n = 275 the last source's float value is just below 80 and truncates to 79, where the model writes 80, so the "last one is exactly 80" clause holds of the integer formula only.
- An exception's message `str(e)` is an opaque string supplied by the failing collaborator. The range and too-few-sources messages are spelled out.
- Media.Image keeps only mode, size and format. `thumbnail` is an oracle (`Fitted` in the resize routine), so its aspect-fit arithmetic is not modelled.
- Media.Converted and Media.Resized never fail. In the source, convert and resize can raise; the routine's handler would then catch that like any other failure.
- ImageResize.Fitted: PIL's `thumbnail` (worker/image/resize.py:43) is an oracle that always returns a picture. In the source it can raise. So a resize never stops right after its 50 write.
- PdfExtract.ExtractRun and PdfMerge.MergeRun: creating the empty output document (`fitz.open()`, worker/pdf/extract.py:50 and worker/pdf/merge.py:36) and copying pages into it (`insert_pdf`, worker/pdf/extract.py:57 and worker/pdf/merge.py:50) never fail. In the source each can raise. So an extract never stops right after its 50 write, and a merge source fails only by its download or its parse.
- Text.Lower and Text.Upper map ASCII letters only. Unicode case mapping is not modelled.
- `upload.read()` and `file.read()` are taken never to fail. The file bytes are part of `UploadFile`.
- The default arguments of the worker signatures (target_format="PNG", quality=75, compression_level="medium") are not modelled. The server always passes every argument, so no default is ever used. The name "medium" is still in the model as `PdfCompress.DefaultLevel`, because `SettingsFor` falls back to medium's settings for an unknown level (worker/pdf/compress.py:51).
- The per-routine `print` calls and the `load_dotenv`/`cloudinary.config` setup are left out.
