/** The submit and cancel handlers: upload the original, enqueue the job, then write the queued
    record; revoke and mark a task cancelled. */
module Server {
  import opened Wrappers
  import opened Text
  import opened Records
  import opened Media
  import opened Validation
  import opened TaskStatus

  /** The folder every original upload goes to. */
  const OriginalsFolder: string := "mediaforge/originals"

  /** The job-specific keyword arguments of an enqueued task. */
  datatype Job =
    | CompressImageJob(quality: int)
    | ResizeImageJob(width: int, height: int, maintainAspectRatio: bool)
    | ConvertImageJob(targetFormat: string)
    | CompressPdfJob(compressionLevel: string)
    | ExtractPdfJob(startPage: int, endPage: int)

  /** The registered task name each job is sent under. */
  function TaskName(job: Job): string
  {
    match job
    case CompressImageJob(_) => "image.compress"
    case ResizeImageJob(_, _, _) => "image.resize"
    case ConvertImageJob(_) => "image.convert"
    case CompressPdfJob(_) => "pdf.compress"
    case ExtractPdfJob(_, _) => "pdf.extract"
  }

  /** One send_task call: a single-file job with its original's locator, or a merge with the
      locators of all sources. */
  datatype Message =
    | FileTask(name: string, taskId: string, fileUrl: string, job: Job)
    | MergeTask(taskId: string, pdfUrls: seq<string>)

  /** The task broker as the server uses it: send_task either enqueues or raises (refusal tells
      which, for each message), and revoke is recorded. */
  class Broker {
    const refusal: Message -> Option<string>
    var sent: seq<Message>
    var revoked: seq<string>

    constructor (refusal: Message -> Option<string>)
      ensures this.refusal == refusal && sent == [] && revoked == []
    {
      this.refusal := refusal;
      sent := [];
      revoked := [];
    }

    /** send_task: None when the message was enqueued, Some(e) when the call raised e. */
    method SendTask(msg: Message) returns (raised: Option<string>)
      modifies this
      ensures raised == refusal(msg)
      ensures raised.None? ==> sent == old(sent) + [msg]
      ensures raised.Some? ==> sent == old(sent)
      ensures revoked == old(revoked)
    {
      raised := refusal(msg);
      if raised.None? {
        sent := sent + [msg];
      }
    }

    /** control.revoke(task_id, terminate=True). */
    method Revoke(taskId: string)
      modifies this
      ensures revoked == old(revoked) + [taskId]
      ensures sent == old(sent)
    {
      revoked := revoked + [taskId];
    }
  }

  /** The storage service as the server uses it: each upload is answered by storage, and every
      call is recorded whether or not it succeeds. */
  class Cloud {
    const storage: Storage
    var uploads: seq<UploadRequest>

    constructor (storage: Storage)
      ensures this.storage == storage && uploads == []
    {
      this.storage := storage;
      uploads := [];
    }

    /** cloudinary.uploader.upload: the secure URL of the stored file, or the error it raised. */
    method Upload(req: UploadRequest) returns (r: Result<string>)
      modifies this
      ensures r == storage.upload(req)
      ensures uploads == old(uploads) + [req]
    {
      r := storage.upload(req);
      uploads := uploads + [req];
    }
  }

  /** A handler's answer: its JSON body, or the HTTPException it raises. */
  datatype Reply<+T> = Accepted(value: T) | Rejected(error: HttpError)

  /** The resource type of an original: "raw" for exactly the PDF type, "auto" for anything else. */
  function ResourceType(contentType: string): (rt: string)
    ensures rt == "raw" <==> contentType == PdfType
    ensures rt != "raw" ==> rt == "auto"
  {
    if contentType == PdfType then "raw" else "auto"
  }

  function OriginalUpload(file: UploadFile): UploadRequest
  {
    UploadRequest(file.data, OriginalsFolder, Some(ResourceType(file.contentType)), None)
  }

  /** The detail of a 500 raised from the submit path. */
  function SubmitFailed(e: string): HttpError
  {
    HttpError(ServerError, "Upload or task failed: " + e)
  }

  /** What create_task does, given the storage service's and the broker's answers: the message
      it enqueues, or the 500 it raises when the upload or the send raises. A job that goes out
      names its routine, the fresh id and the original's locator, and the original went up as raw
      exactly when it is a PDF. */
  function Submission(cloud: Storage, refusal: Message -> Option<string>, file: UploadFile, job: Job, taskId: string): (s: Reply<Message>)
    ensures s.Accepted? ==>
      && s.value.FileTask? && s.value.taskId == taskId && s.value.job == job && s.value.name == TaskName(job)
      && cloud.upload(UploadRequest(file.data, OriginalsFolder, Some(ResourceType(file.contentType)), None)) == Ok(s.value.fileUrl)
      && refusal(s.value).None?
    ensures cloud.upload(OriginalUpload(file)).Err? ==> s == Rejected(SubmitFailed(cloud.upload(OriginalUpload(file)).msg))
    ensures (cloud.upload(OriginalUpload(file)).Ok?
             && refusal(FileTask(TaskName(job), taskId, cloud.upload(OriginalUpload(file)).value, job)).None?) ==>
      s == Accepted(FileTask(TaskName(job), taskId, cloud.upload(OriginalUpload(file)).value, job))
    ensures s.Rejected? ==> s.error.code == 500
  {
    match cloud.upload(OriginalUpload(file))
    case Err(e) => Rejected(SubmitFailed(e))
    case Ok(url) =>
      var msg := FileTask(TaskName(job), taskId, url, job);
      match refusal(msg)
      case Some(e) => Rejected(SubmitFailed(e))
      case None => Accepted(msg)
  }

  /** A handler check that failed short-circuits the submission. */
  function Guarded(check: Option<HttpError>, submission: Reply<Message>): Reply<Message>
  {
    if check.Some? then Rejected(check.value) else submission
  }

  /** The state a submit handler leaves: when the message went out, the broker holds it and the
      fresh id's record got one HSET of the queued mapping, and the reply is the id; when it was
      refused, nothing was enqueued or written and the reply is the error. */
  ghost predicate Answered(store: RecordStore, broker: Broker, data0: Keyspace, log0: seq<Write>, sent0: seq<Message>,
                           revoked0: seq<string>, taskId: string, s: Reply<Message>, r: Reply<string>)
    reads store, broker
  {
    && broker.revoked == revoked0
    && match s
       case Accepted(msg) =>
         && r == Accepted(taskId)
         && broker.sent == sent0 + [msg]
         && store.data == data0[taskId := Merge(Lookup(data0, taskId), Queued)]
         && store.log == log0 + [Write(taskId, Queued)]
       case Rejected(e) =>
         && r == Rejected(e)
         && broker.sent == sent0
         && store.data == data0
         && store.log == log0
  }

  /** The original uploads a submit handler attempts: none when a check refuses the request,
      otherwise exactly one, whatever becomes of it. */
  function OriginalsTried(check: Option<HttpError>, file: UploadFile): (tried: seq<UploadRequest>)
    ensures check.Some? <==> tried == []
    ensures check.None? ==> tried == [OriginalUpload(file)]
  {
    if check.Some? then [] else [OriginalUpload(file)]
  }

  /** create_task: upload the original, send the job, and only then write the queued record.
      taskId is the fresh uuid4 the handler draws. The upload is attempted in every case, so a
      refused send leaves the stored original behind. */
  method CreateTask(store: RecordStore, broker: Broker, cloud: Cloud, file: UploadFile, job: Job, taskId: string)
    returns (r: Reply<string>)
    modifies store, broker, cloud
    ensures Answered(store, broker, old(store.data), old(store.log), old(broker.sent), old(broker.revoked), taskId,
                     Submission(cloud.storage, broker.refusal, file, job, taskId), r)
    ensures cloud.uploads == old(cloud.uploads) + [OriginalUpload(file)]
    ensures r.Accepted? && taskId !in old(store.data) ==> store.data[taskId] == Queued
  {
    var resourceType := ResourceType(file.contentType);
    var uploaded := cloud.Upload(UploadRequest(file.data, OriginalsFolder, Some(resourceType), None));
    if uploaded.Err? {
      return Rejected(SubmitFailed(uploaded.msg));
    }
    var originalUrl := uploaded.value;
    var raised := broker.SendTask(FileTask(TaskName(job), taskId, originalUrl, job));
    if raised.Some? {
      return Rejected(SubmitFailed(raised.value));
    }
    store.HSet(taskId, Queued);
    r := Accepted(taskId);
  }

  /** POST /image/compress. */
  method CompressImage(store: RecordStore, broker: Broker, cloud: Cloud, file: UploadFile, quality: int, taskId: string)
    returns (r: Reply<string>)
    modifies store, broker, cloud
    ensures Answered(store, broker, old(store.data), old(store.log), old(broker.sent), old(broker.revoked), taskId,
                     Guarded(CheckCompressImage(file.contentType, quality),
                             Submission(cloud.storage, broker.refusal, file, CompressImageJob(quality), taskId)), r)
    ensures cloud.uploads == old(cloud.uploads) + OriginalsTried(CheckCompressImage(file.contentType, quality), file)
  {
    var invalid := CheckCompressImage(file.contentType, quality);
    if invalid.Some? {
      return Rejected(invalid.value);
    }
    r := CreateTask(store, broker, cloud, file, CompressImageJob(quality), taskId);
  }

  /** POST /image/resize. */
  method ResizeImage(store: RecordStore, broker: Broker, cloud: Cloud, file: UploadFile, width: int, height: int,
                     maintainAspectRatio: bool, taskId: string)
    returns (r: Reply<string>)
    modifies store, broker, cloud
    ensures Answered(store, broker, old(store.data), old(store.log), old(broker.sent), old(broker.revoked), taskId,
                     Guarded(CheckResize(file.contentType, width, height),
                             Submission(cloud.storage, broker.refusal, file, ResizeImageJob(width, height, maintainAspectRatio), taskId)), r)
    ensures cloud.uploads == old(cloud.uploads) + OriginalsTried(CheckResize(file.contentType, width, height), file)
  {
    var invalid := CheckResize(file.contentType, width, height);
    if invalid.Some? {
      return Rejected(invalid.value);
    }
    r := CreateTask(store, broker, cloud, file, ResizeImageJob(width, height, maintainAspectRatio), taskId);
  }

  /** POST /image/convert: the worker receives the lower-cased target. */
  method ConvertImage(store: RecordStore, broker: Broker, cloud: Cloud, file: UploadFile, targetFormat: string, taskId: string)
    returns (r: Reply<string>)
    modifies store, broker, cloud
    ensures Answered(store, broker, old(store.data), old(store.log), old(broker.sent), old(broker.revoked), taskId,
                     Guarded(CheckConvert(file.contentType, targetFormat),
                             Submission(cloud.storage, broker.refusal, file, ConvertImageJob(Lower(targetFormat)), taskId)), r)
    ensures cloud.uploads == old(cloud.uploads) + OriginalsTried(CheckConvert(file.contentType, targetFormat), file)
  {
    var invalid := CheckConvert(file.contentType, targetFormat);
    if invalid.Some? {
      return Rejected(invalid.value);
    }
    r := CreateTask(store, broker, cloud, file, ConvertImageJob(Lower(targetFormat)), taskId);
  }

  /** POST /pdf/compress. */
  method CompressPdf(store: RecordStore, broker: Broker, cloud: Cloud, file: UploadFile, compressionLevel: string, taskId: string)
    returns (r: Reply<string>)
    modifies store, broker, cloud
    ensures Answered(store, broker, old(store.data), old(store.log), old(broker.sent), old(broker.revoked), taskId,
                     Guarded(CheckCompressPdf(file.contentType, compressionLevel),
                             Submission(cloud.storage, broker.refusal, file, CompressPdfJob(compressionLevel), taskId)), r)
    ensures cloud.uploads == old(cloud.uploads) + OriginalsTried(CheckCompressPdf(file.contentType, compressionLevel), file)
  {
    var invalid := CheckCompressPdf(file.contentType, compressionLevel);
    if invalid.Some? {
      return Rejected(invalid.value);
    }
    r := CreateTask(store, broker, cloud, file, CompressPdfJob(compressionLevel), taskId);
  }

  /** POST /pdf/extract: the page range goes to the worker unchecked. */
  method ExtractPdfPages(store: RecordStore, broker: Broker, cloud: Cloud, file: UploadFile, startPage: int, endPage: int,
                         taskId: string)
    returns (r: Reply<string>)
    modifies store, broker, cloud
    ensures Answered(store, broker, old(store.data), old(store.log), old(broker.sent), old(broker.revoked), taskId,
                     Guarded(CheckExtract(file.contentType),
                             Submission(cloud.storage, broker.refusal, file, ExtractPdfJob(startPage, endPage), taskId)), r)
    ensures cloud.uploads == old(cloud.uploads) + OriginalsTried(CheckExtract(file.contentType), file)
  {
    var invalid := CheckExtract(file.contentType);
    if invalid.Some? {
      return Rejected(invalid.value);
    }
    r := CreateTask(store, broker, cloud, file, ExtractPdfJob(startPage, endPage), taskId);
  }

  /** Every source of a merge is uploaded as a raw original. */
  function SourceUpload(file: UploadFile): UploadRequest
  {
    UploadRequest(file.data, OriginalsFolder, Some("raw"), None)
  }

  /** The locators of the uploaded sources, in input order, or the first upload error. */
  function UploadAll(cloud: Storage, files: seq<UploadFile>): (r: Result<seq<string>>)
    ensures r.Ok? ==> |r.value| == |files|
    ensures r.Ok? ==> forall i :: 0 <= i < |files| ==> cloud.upload(SourceUpload(files[i])) == Ok(r.value[i])
    decreases |files|
  {
    if files == [] then Ok([])
    else
      var init := files[..|files| - 1];
      match UploadAll(cloud, init)
      case Err(e) => Err(e)
      case Ok(urls) =>
        assert forall i :: 0 <= i < |init| ==> files[i] == init[i];
        match cloud.upload(SourceUpload(files[|files| - 1]))
        case Err(e) => Err(e)
        case Ok(url) => Ok(urls + [url])
  }

  /** Once one upload fails, the rest are not attempted and its error is the answer. */
  lemma {:induction false} UploadAllStopsAt(cloud: Storage, files: seq<UploadFile>, i: nat, e: string)
    requires i < |files|
    requires UploadAll(cloud, files[..i]).Ok? && cloud.upload(SourceUpload(files[i])) == Err(e)
    ensures UploadAll(cloud, files) == Err(e)
    ensures UploadsTried(cloud, files) == UploadsTried(cloud, files[..i + 1])
    decreases |files|
  {
    if i + 1 == |files| {
      assert files[..|files| - 1] == files[..i];
      assert files[..i + 1] == files;
    } else {
      assert files[..|files| - 1][..i] == files[..i];
      assert files[..|files| - 1][i] == files[i];
      assert files[..|files| - 1][..i + 1] == files[..i + 1];
      UploadAllStopsAt(cloud, files[..|files| - 1], i, e);
    }
  }

  /** The source uploads the loop attempts, in order: each file's upload up to and including the
      first that fails. Every attempted upload but the failing one stored its file; when none
      fails, every file was uploaded. */
  function UploadsTried(cloud: Storage, files: seq<UploadFile>): (tried: seq<UploadRequest>)
    ensures |tried| <= |files|
    ensures forall i :: 0 <= i < |tried| ==> tried[i] == SourceUpload(files[i])
    ensures UploadAll(cloud, files).Ok? ==> |tried| == |files|
    ensures UploadAll(cloud, files).Err? ==>
      |tried| > 0 && cloud.upload(tried[|tried| - 1]) == Err(UploadAll(cloud, files).msg)
    ensures forall i :: 0 <= i < |tried| - 1 ==> cloud.upload(tried[i]).Ok?
    ensures UploadAll(cloud, files).Ok? ==> forall i :: 0 <= i < |tried| ==> cloud.upload(tried[i]).Ok?
    decreases |files|
  {
    if files == [] then []
    else
      var init := files[..|files| - 1];
      assert forall i :: 0 <= i < |init| ==> files[i] == init[i];
      if UploadAll(cloud, init).Err? then UploadsTried(cloud, init)
      else UploadsTried(cloud, init) + [SourceUpload(files[|files| - 1])]
  }

  /** What merge_pdfs does after its checks: all the uploads, then one send. A merge that goes
      out carries the id and one locator per file, each the upload of that file, in input order. */
  function MergeSubmission(cloud: Storage, refusal: Message -> Option<string>, files: seq<UploadFile>, taskId: string): (s: Reply<Message>)
    ensures s.Accepted? ==>
      && s.value.MergeTask? && s.value.taskId == taskId && |s.value.pdfUrls| == |files|
      && (forall i :: 0 <= i < |files| ==> cloud.upload(SourceUpload(files[i])) == Ok(s.value.pdfUrls[i]))
      && refusal(s.value).None?
    ensures UploadAll(cloud, files).Err? ==> s == Rejected(SubmitFailed(UploadAll(cloud, files).msg))
    ensures UploadAll(cloud, files).Ok? && refusal(MergeTask(taskId, UploadAll(cloud, files).value)).None? ==>
      s == Accepted(MergeTask(taskId, UploadAll(cloud, files).value))
    ensures s.Rejected? ==> s.error.code == 500
  {
    match UploadAll(cloud, files)
    case Err(e) => Rejected(SubmitFailed(e))
    case Ok(urls) =>
      var msg := MergeTask(taskId, urls);
      match refusal(msg)
      case Some(e) => Rejected(SubmitFailed(e))
      case None => Accepted(msg)
  }

  /** The upload loop of merge_pdfs: each file in order as a raw original, stopping at the first
      upload that raises. */
  method UploadSources(cloud: Cloud, files: seq<UploadFile>) returns (pdfUrls: Result<seq<string>>)
    modifies cloud
    ensures pdfUrls == UploadAll(cloud.storage, files)
    ensures cloud.uploads == old(cloud.uploads) + UploadsTried(cloud.storage, files)
  {
    var urls: seq<string> := [];
    for i := 0 to |files|
      invariant UploadAll(cloud.storage, files[..i]) == Ok(urls)
      invariant cloud.uploads == old(cloud.uploads) + UploadsTried(cloud.storage, files[..i])
    {
      var uploaded := cloud.Upload(UploadRequest(files[i].data, OriginalsFolder, Some("raw"), None));
      assert files[..i + 1][..i] == files[..i];
      assert files[..i + 1][i] == files[i];
      if uploaded.Err? {
        UploadAllStopsAt(cloud.storage, files, i, uploaded.msg);
        return Err(uploaded.msg);
      }
      urls := urls + [uploaded.value];
    }
    assert files[..|files|] == files;
    pdfUrls := Ok(urls);
  }

  /** POST /pdf/merge: check the files, upload them one by one in order, send the merge with the
      locators, then write the queued record. */
  method MergePdfs(store: RecordStore, broker: Broker, cloud: Cloud, files: seq<UploadFile>, taskId: string)
    returns (r: Reply<string>)
    modifies store, broker, cloud
    ensures Answered(store, broker, old(store.data), old(store.log), old(broker.sent), old(broker.revoked), taskId,
                     Guarded(CheckMerge(files), MergeSubmission(cloud.storage, broker.refusal, files, taskId)), r)
    ensures CheckMerge(files).Some? ==> cloud.uploads == old(cloud.uploads)
    ensures CheckMerge(files).None? ==> cloud.uploads == old(cloud.uploads) + UploadsTried(cloud.storage, files)
  {
    var invalid := CheckMerge(files);
    if invalid.Some? {
      return Rejected(invalid.value);
    }
    var uploaded := UploadSources(cloud, files);
    if uploaded.Err? {
      return Rejected(SubmitFailed(uploaded.msg));
    }
    var pdfUrls := uploaded.value;
    var raised := broker.SendTask(MergeTask(taskId, pdfUrls));
    if raised.Some? {
      return Rejected(SubmitFailed(raised.value));
    }
    store.HSet(taskId, Queued);
    r := Accepted(taskId);
  }

  /** A merge that goes out carries one locator per file, each the upload of that file, in the
      order the files were given; one that is refused by a check never reaches the uploads. */
  lemma MergeSourcesInOrder(cloud: Storage, refusal: Message -> Option<string>, files: seq<UploadFile>, taskId: string)
    ensures var s := Guarded(CheckMerge(files), MergeSubmission(cloud, refusal, files, taskId));
      s.Accepted? ==>
        && |files| >= 2
        && s.value == MergeTask(taskId, s.value.pdfUrls)
        && |s.value.pdfUrls| == |files|
        && forall i :: 0 <= i < |files| ==> cloud.upload(SourceUpload(files[i])) == Ok(s.value.pdfUrls[i])
  {
  }

  /** A merge that passes its checks but is then refused leaves stored sources behind: every
      upload before the failing one went through, and a refused send follows the upload of every
      file, at least two. */
  lemma RefusedMergeLeavesUploads(cloud: Storage, refusal: Message -> Option<string>, files: seq<UploadFile>, taskId: string)
    requires CheckMerge(files).None? && MergeSubmission(cloud, refusal, files, taskId).Rejected?
    ensures var tried := UploadsTried(cloud, files);
      && |tried| >= 1
      && (forall i :: 0 <= i < |tried| - 1 ==> cloud.upload(tried[i]).Ok?)
      && (UploadAll(cloud, files).Ok? ==>
            |tried| == |files| >= 2 && forall i :: 0 <= i < |tried| ==> cloud.upload(tried[i]).Ok?)
  {
  }

  /** The body of a successful cancel. */
  const CancelledMessage: string := "Task cancelled successfully"

  /** cancel_task: 404 for an empty record, 400 for a completed or failed one; otherwise revoke
      the task and set only its status to "cancelled". */
  method CancelTask(store: RecordStore, broker: Broker, taskId: string) returns (r: Reply<string>)
    modifies store, broker
    ensures broker.sent == old(broker.sent)
    ensures CancelGuard(Lookup(old(store.data), taskId)).Some? ==>
      && r == Rejected(CancelGuard(Lookup(old(store.data), taskId)).value)
      && store.data == old(store.data) && store.log == old(store.log)
      && broker.revoked == old(broker.revoked)
    ensures CancelGuard(Lookup(old(store.data), taskId)).None? ==>
      && r == Accepted(CancelledMessage)
      && store.data == old(store.data)[taskId := Merge(Lookup(old(store.data), taskId), Cancelled)]
      && store.log == old(store.log) + [Write(taskId, Cancelled)]
      && broker.revoked == old(broker.revoked) + [taskId]
  {
    var statusData := store.HGetAll(taskId);
    if statusData == Empty {
      return Rejected(HttpError(NotFound, "Task not found"));
    }
    var currentStatus := statusData.status;
    if currentStatus in [Some("completed"), Some("failed")] {
      return Rejected(HttpError(BadRequest, "Cannot cancel completed or failed task"));
    }
    broker.Revoke(taskId);
    store.HSet(taskId, Cancelled);
    r := Accepted(CancelledMessage);
  }
}
