/** The `pdf.extract` routine: copy the 1-based inclusive page range start..end of the source
    PDF into a new document and store it. */
module PdfExtract {
  import opened Wrappers
  import opened Text
  import opened Records
  import opened Lifecycle
  import opened Media

  /** Progress checkpoints after the start write: downloaded, range checked, pages copied, saved. */
  const Schedule: seq<nat> := [30, 50, 75, 90]

  /** The message of the ValueError raised for a bad page range: the page count, then the
      requested range as "start-end". */
  function InvalidRange(totalPages: nat, startPage: int, endPage: int): (msg: string)
    ensures var count := "Invalid page range. PDF has " + NatToString(totalPages);
      |count| <= |msg| && msg[..|count|] == count
    ensures var range := IntToString(startPage) + "-" + IntToString(endPage);
      |range| <= |msg| && msg[|msg| - |range|..] == range
  {
    var count := "Invalid page range. PDF has " + NatToString(totalPages);
    var range := IntToString(startPage) + "-" + IntToString(endPage);
    var msg := count + " pages. Requested: " + range;
    assert msg[..|count|] == count;
    assert msg[|msg| - |range|..] == range;
    msg
  }

  const Folder: string := "mediaforge/pdf_extracted"

  /** The range check: rejected when start < 1, end > total or start > end. */
  function PageRangeOk(startPage: int, endPage: int, totalPages: nat): (ok: bool)
    ensures ok <==> 1 <= startPage <= endPage <= totalPages
  {
    !(startPage < 1 || endPage > totalPages || startPage > endPage)
  }

  /** The extra field of the completion write: extracted_pages = "start-end". */
  function ExtractedPages(startPage: nat, endPage: nat): (f: Fields)
    ensures forall g :: Get(f, g).Some? <==> g == ExtractedPagesField
    ensures f.extractedPages == Some(NatToString(startPage) + "-" + NatToString(endPage))
  {
    Empty.(extractedPages := Some(NatToString(startPage) + "-" + NatToString(endPage)))
  }

  function ResultUpload(data: Bytes): UploadRequest
  {
    UploadRequest(data, Folder, Some("raw"), Some("pdf"))
  }

  /** Copy pages start-1 .. end-1 (0-based) one at a time, in ascending order. */
  method ExtractPages(doc: Document, startPage: int, endPage: int) returns (out: Document)
    requires PageRangeOk(startPage, endPage, |doc|)
    ensures |out| == endPage - startPage + 1
    ensures forall k :: 0 <= k < |out| ==> out[k] == doc[startPage - 1 + k]
    ensures out == doc[startPage - 1 .. endPage]
  {
    var startIdx := startPage - 1;
    var endIdx := endPage - 1;
    out := [];
    for pageNum := startIdx to endIdx + 1
      invariant out == doc[startIdx .. pageNum]
    {
      out := out + [doc[pageNum]];
    }
  }

  /** The writes and the outcome of one run of the routine, given what its collaborators answer. */
  function ExtractRun(fileUrl: string, startPage: int, endPage: int, io: Storage, pdf: PdfCodec): (r: Run)
    ensures io.fetch(fileUrl).Err? ==>
      r.updates == [Begin, Fail(io.fetch(fileUrl).msg)] && r.outcome == Raised(io.fetch(fileUrl).msg)
    ensures (io.fetch(fileUrl).Ok? && pdf.open(io.fetch(fileUrl).value).Ok?
             && !PageRangeOk(startPage, endPage, |pdf.open(io.fetch(fileUrl).value).value|)) ==>
      r.outcome == Raised(InvalidRange(|pdf.open(io.fetch(fileUrl).value).value|, startPage, endPage))
    ensures r.outcome.Returned? ==>
      && io.fetch(fileUrl).Ok? && pdf.open(io.fetch(fileUrl).value).Ok?
      && var doc := pdf.open(io.fetch(fileUrl).value).value;
         && PageRangeOk(startPage, endPage, |doc|)
         && pdf.save(doc[startPage - 1 .. endPage], None).Ok?
         && io.upload(ResultUpload(pdf.save(doc[startPage - 1 .. endPage], None).value)) == Ok(r.outcome.url)
    ensures (&& io.fetch(fileUrl).Ok? && pdf.open(io.fetch(fileUrl).value).Ok?
             && var doc := pdf.open(io.fetch(fileUrl).value).value;
                && PageRangeOk(startPage, endPage, |doc|)
                && pdf.save(doc[startPage - 1 .. endPage], None).Ok?
                && io.upload(ResultUpload(pdf.save(doc[startPage - 1 .. endPage], None).value)).Ok?) ==>
      var doc := pdf.open(io.fetch(fileUrl).value).value;
      r.outcome == Returned(io.upload(ResultUpload(pdf.save(doc[startPage - 1 .. endPage], None).value)).value)
  {
    match io.fetch(fileUrl)
    case Err(m) => Stopped(Schedule, 0, m)
    case Ok(bytes) =>
      match pdf.open(bytes)
      case Err(m) => Stopped(Schedule, 1, m)
      case Ok(doc) =>
        if !PageRangeOk(startPage, endPage, |doc|) then Stopped(Schedule, 1, InvalidRange(|doc|, startPage, endPage))
        else
          match pdf.save(doc[startPage - 1 .. endPage], None)
          case Err(m) => Stopped(Schedule, 3, m)
          case Ok(data) =>
            match io.upload(ResultUpload(data))
            case Err(m) => Stopped(Schedule, 4, m)
            case Ok(url) => Finished(Schedule, url, ExtractedPages(startPage, endPage))
  }

  /** extract_pdf_pages_task: the try block, then the handler that records the failure and
      re-raises. */
  method ExtractPdfPagesTask(store: RecordStore, taskId: string, fileUrl: string, startPage: int, endPage: int,
                             io: Storage, pdf: PdfCodec)
    returns (outcome: TaskOutcome)
    modifies store
    ensures outcome == ExtractRun(fileUrl, startPage, endPage, io, pdf).outcome
    ensures store.data == AfterWrites(old(store.data), taskId, ExtractRun(fileUrl, startPage, endPage, io, pdf).updates)
    ensures store.log == old(store.log) + Stamp(taskId, ExtractRun(fileUrl, startPage, endPage, io, pdf).updates)
  {
    var record := new TaskReporter(store, taskId, Schedule);
    outcome := ExtractAttempt(record, fileUrl, startPage, endPage, io, pdf);
    if outcome.Raised? {
      record.MarkFailed(outcome.error);
    }
  }

  /** The try block of extract_pdf_pages_task; Raised(e) is the exception that leaves it. */
  method ExtractAttempt(record: TaskReporter, fileUrl: string, startPage: int, endPage: int,
                        io: Storage, pdf: PdfCodec)
    returns (outcome: TaskOutcome)
    requires record.Fresh() && record.schedule == Schedule
    modifies record, record.store
    ensures outcome.Raised? ==>
      record.Running() && ExtractRun(fileUrl, startPage, endPage, io, pdf) == Stopped(Schedule, record.reached, outcome.error)
    ensures outcome.Returned? ==>
      record.Ended(ExtractRun(fileUrl, startPage, endPage, io, pdf))
      && outcome == ExtractRun(fileUrl, startPage, endPage, io, pdf).outcome
  {
    record.MarkProcessing();
    var response := io.fetch(fileUrl);
    if response.Err? {
      return Raised(response.msg);
    }
    record.SetProgress(30);
    var parsed := pdf.open(response.value);
    if parsed.Err? {
      return Raised(parsed.msg);
    }
    var pdfDocument := parsed.value;
    var totalPages := |pdfDocument|;
    if startPage < 1 || endPage > totalPages || startPage > endPage {
      return Raised(InvalidRange(totalPages, startPage, endPage));
    }
    record.SetProgress(50);
    var extractedPdf := ExtractPages(pdfDocument, startPage, endPage);
    record.SetProgress(75);
    var saved := pdf.save(extractedPdf, None);
    if saved.Err? {
      return Raised(saved.msg);
    }
    record.SetProgress(90);
    var uploaded := io.upload(ResultUpload(saved.value));
    if uploaded.Err? {
      return Raised(uploaded.msg);
    }
    record.MarkCompleted(uploaded.value, ExtractedPages(startPage, endPage));
    outcome := Returned(uploaded.value);
  }

  /** Every run follows the schedule 10, 30, 50, 75, 90, 100, and a completed run's final
      write carries extracted_pages. */
  lemma ExtractRunFollows(fileUrl: string, startPage: int, endPage: int, io: Storage, pdf: PdfCodec)
    ensures var run := ExtractRun(fileUrl, startPage, endPage, io, pdf);
      && Follows(run, Schedule)
      && (run.outcome.Returned? ==>
            run.updates[|run.updates| - 1] == Complete(run.outcome.url, ExtractedPages(startPage, endPage)))
  {
    match io.fetch(fileUrl)
    case Err(m) => StoppedFollows(Schedule, 0, m);
    case Ok(bytes) =>
      match pdf.open(bytes)
      case Err(m) => StoppedFollows(Schedule, 1, m);
      case Ok(doc) =>
        if !PageRangeOk(startPage, endPage, |doc|) {
          StoppedFollows(Schedule, 1, InvalidRange(|doc|, startPage, endPage));
        } else {
          match pdf.save(doc[startPage - 1 .. endPage], None)
          case Err(m) => StoppedFollows(Schedule, 3, m);
          case Ok(data) =>
            match io.upload(ResultUpload(data))
            case Err(m) => StoppedFollows(Schedule, 4, m);
            case Ok(url) => FinishedFollows(Schedule, url, ExtractedPages(startPage, endPage));
        }
  }

  /** The progress values any run writes strictly increase. */
  lemma ExtractProgressIncreases(fileUrl: string, startPage: int, endPage: int, io: Storage, pdf: PdfCodec)
    ensures StrictlyIncreasing(Pcts(ExtractRun(fileUrl, startPage, endPage, io, pdf).updates))
  {
    ExtractRunFollows(fileUrl, startPage, endPage, io, pdf);
    ScheduleIncreasing();
    FollowsIncreasing(ExtractRun(fileUrl, startPage, endPage, io, pdf), Schedule);
  }

  lemma ScheduleIncreasing()
    ensures StrictlyIncreasing([StartPct] + Schedule + [DonePct])
  {
    StepsIncrease([StartPct] + Schedule + [DonePct]);
  }

  /** A range outside 1 <= start <= end <= total (start 5, end 3, say) is not refused by the
      server: the routine writes processing/10 and 30 before it fails. */
  lemma BadRangeFailsAfterDownload(rec: Fields, fileUrl: string, startPage: int, endPage: int,
                                   io: Storage, pdf: PdfCodec)
    requires io.fetch(fileUrl).Ok? && pdf.open(io.fetch(fileUrl).value).Ok?
    requires !PageRangeOk(startPage, endPage, |pdf.open(io.fetch(fileUrl).value).value|)
    ensures var msg := InvalidRange(|pdf.open(io.fetch(fileUrl).value).value|, startPage, endPage);
      var run := ExtractRun(fileUrl, startPage, endPage, io, pdf);
      && run.outcome == Raised(msg)
      && Pcts(run.updates) == [10, 30]
      && Apply(rec, run.updates) == Merge(rec, Failed(30, msg))
  {
    var msg := InvalidRange(|pdf.open(io.fetch(fileUrl).value).value|, startPage, endPage);
    StoppedFollows(Schedule, 1, msg);
    StoppedRecord(rec, Schedule, 1, msg);
    FailStep(rec, 30, msg);
    assert Schedule[..1] == [30];
  }
}
