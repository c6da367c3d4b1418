/** The `pdf.compress` routine: download a PDF, save it again with the deflate settings of the
    requested level, store the result. */
module PdfCompress {
  import opened Wrappers
  import opened Records
  import opened Lifecycle
  import opened Media

  /** Progress checkpoints after the start write: downloaded, opened, settings chosen, saved. */
  const Schedule: seq<nat> := [30, 50, 70, 85]

  const Folder: string := "mediaforge/pdf_compressed"

  /** The level the routine uses when the caller names none. */
  const DefaultLevel: string := "medium"

  /** The save settings per compression level. */
  const CompressionSettings: map<string, PdfSaveSettings> := map[
    "low" := PdfSaveSettings(1, true, true, None),
    "medium" := PdfSaveSettings(6, true, true, None),
    "high" := PdfSaveSettings(9, true, true, Some(4))
  ]

  /** compression_settings.get(level, compression_settings["medium"]) */
  function SettingsFor(level: string): (s: PdfSaveSettings)
    ensures level in CompressionSettings ==> s == CompressionSettings[level]
    ensures level !in CompressionSettings ==> s == CompressionSettings[DefaultLevel]
  {
    if level in CompressionSettings then CompressionSettings[level] else CompressionSettings[DefaultLevel]
  }

  /** Images and fonts are always deflated; a higher level never deflates less; only "high"
      collects garbage; any other level name compresses as "medium". */
  lemma SettingsFacts(level: string)
    ensures SettingsFor(level).deflateImages && SettingsFor(level).deflateFonts
    ensures SettingsFor("low").deflate < SettingsFor("medium").deflate < SettingsFor("high").deflate
    ensures SettingsFor(level).garbage.Some? <==> level == "high"
    ensures SettingsFor("high").garbage == Some(4)
    ensures level !in {"low", "medium", "high"} ==> SettingsFor(level) == SettingsFor("medium")
  {
    assert CompressionSettings.Keys == {"low", "medium", "high"};
  }

  function ResultUpload(data: Bytes): UploadRequest
  {
    UploadRequest(data, Folder, Some("raw"), Some("pdf"))
  }

  /** The writes and the outcome of one run of the routine, given what its collaborators answer. */
  function CompressPdfRun(fileUrl: string, level: string, io: Storage, pdf: PdfCodec): (r: Run)
    ensures io.fetch(fileUrl).Err? ==>
      r.updates == [Begin, Fail(io.fetch(fileUrl).msg)] && r.outcome == Raised(io.fetch(fileUrl).msg)
    ensures r.outcome.Returned? ==>
      && io.fetch(fileUrl).Ok? && pdf.open(io.fetch(fileUrl).value).Ok?
      && var saved := pdf.save(pdf.open(io.fetch(fileUrl).value).value, Some(SettingsFor(level)));
         && saved.Ok?
         && io.upload(ResultUpload(saved.value)) == Ok(r.outcome.url)
    ensures (&& io.fetch(fileUrl).Ok? && pdf.open(io.fetch(fileUrl).value).Ok?
             && var saved := pdf.save(pdf.open(io.fetch(fileUrl).value).value, Some(SettingsFor(level)));
                saved.Ok? && io.upload(ResultUpload(saved.value)).Ok?) ==>
      var saved := pdf.save(pdf.open(io.fetch(fileUrl).value).value, Some(SettingsFor(level)));
      r.outcome == Returned(io.upload(ResultUpload(saved.value)).value)
  {
    match io.fetch(fileUrl)
    case Err(m) => Stopped(Schedule, 0, m)
    case Ok(bytes) =>
      match pdf.open(bytes)
      case Err(m) => Stopped(Schedule, 1, m)
      case Ok(doc) =>
        match pdf.save(doc, Some(SettingsFor(level)))
        case Err(m) => Stopped(Schedule, 3, m)
        case Ok(data) =>
          match io.upload(ResultUpload(data))
          case Err(m) => Stopped(Schedule, 4, m)
          case Ok(url) => Finished(Schedule, url, Empty)
  }

  /** compress_pdf_task: the try block, then the handler that records the failure and re-raises. */
  method CompressPdfTask(store: RecordStore, taskId: string, fileUrl: string, compressionLevel: string,
                         io: Storage, pdf: PdfCodec)
    returns (outcome: TaskOutcome)
    modifies store
    ensures outcome == CompressPdfRun(fileUrl, compressionLevel, io, pdf).outcome
    ensures store.data == AfterWrites(old(store.data), taskId, CompressPdfRun(fileUrl, compressionLevel, io, pdf).updates)
    ensures store.log == old(store.log) + Stamp(taskId, CompressPdfRun(fileUrl, compressionLevel, io, pdf).updates)
  {
    var record := new TaskReporter(store, taskId, Schedule);
    outcome := CompressPdfAttempt(record, fileUrl, compressionLevel, io, pdf);
    if outcome.Raised? {
      record.MarkFailed(outcome.error);
    }
  }

  /** The try block of compress_pdf_task; Raised(e) is the exception that leaves it. */
  method CompressPdfAttempt(record: TaskReporter, fileUrl: string, compressionLevel: string,
                            io: Storage, pdf: PdfCodec)
    returns (outcome: TaskOutcome)
    requires record.Fresh() && record.schedule == Schedule
    modifies record, record.store
    ensures outcome.Raised? ==>
      record.Running() && CompressPdfRun(fileUrl, compressionLevel, io, pdf) == Stopped(Schedule, record.reached, outcome.error)
    ensures outcome.Returned? ==>
      record.Ended(CompressPdfRun(fileUrl, compressionLevel, io, pdf))
      && outcome == CompressPdfRun(fileUrl, compressionLevel, io, pdf).outcome
  {
    record.MarkProcessing();
    var response := io.fetch(fileUrl);
    if response.Err? {
      return Raised(response.msg);
    }
    record.SetProgress(30);
    var parsed := pdf.open(response.value);
    if parsed.Err? {
      return Raised(parsed.msg);
    }
    var pdfDocument := parsed.value;
    record.SetProgress(50);
    var settings := SettingsFor(compressionLevel);
    record.SetProgress(70);
    var compressed := pdf.save(pdfDocument, Some(settings));
    if compressed.Err? {
      return Raised(compressed.msg);
    }
    record.SetProgress(85);
    var uploaded := io.upload(ResultUpload(compressed.value));
    if uploaded.Err? {
      return Raised(uploaded.msg);
    }
    record.MarkCompleted(uploaded.value, Empty);
    outcome := Returned(uploaded.value);
  }

  /** Every run follows the schedule 10, 30, 50, 70, 85, 100. */
  lemma CompressPdfRunFollows(fileUrl: string, level: string, io: Storage, pdf: PdfCodec)
    ensures Follows(CompressPdfRun(fileUrl, level, io, pdf), Schedule)
  {
    match io.fetch(fileUrl) {
      case Err(m) => StoppedFollows(Schedule, 0, m);
      case Ok(bytes) =>
        match pdf.open(bytes)
        case Err(m) => StoppedFollows(Schedule, 1, m);
        case Ok(doc) =>
          match pdf.save(doc, Some(SettingsFor(level)))
          case Err(m) => StoppedFollows(Schedule, 3, m);
          case Ok(data) =>
            match io.upload(ResultUpload(data))
            case Err(m) => StoppedFollows(Schedule, 4, m);
            case Ok(url) => FinishedFollows(Schedule, url, Empty);
    }
  }

  /** The progress values any run writes strictly increase. */
  lemma CompressPdfProgressIncreases(fileUrl: string, level: string, io: Storage, pdf: PdfCodec)
    ensures StrictlyIncreasing(Pcts(CompressPdfRun(fileUrl, level, io, pdf).updates))
  {
    CompressPdfRunFollows(fileUrl, level, io, pdf);
    ScheduleIncreasing();
    FollowsIncreasing(CompressPdfRun(fileUrl, level, io, pdf), Schedule);
  }

  lemma ScheduleIncreasing()
    ensures StrictlyIncreasing([StartPct] + Schedule + [DonePct])
  {
    StepsIncrease([StartPct] + Schedule + [DonePct]);
  }

  /** The settings a completed run saved with: images and fonts deflated, garbage collected
      only for "high", and an unknown level's document saved exactly as "medium" saves it. */
  lemma CompressSavesWithLevel(fileUrl: string, level: string, io: Storage, pdf: PdfCodec)
    requires CompressPdfRun(fileUrl, level, io, pdf).outcome.Returned?
    ensures io.fetch(fileUrl).Ok? && pdf.open(io.fetch(fileUrl).value).Ok?
    ensures var settings := SettingsFor(level);
      && settings.deflateImages && settings.deflateFonts
      && (settings.garbage.Some? <==> level == "high")
    ensures level !in {"low", "medium", "high"} ==>
      CompressPdfRun(fileUrl, level, io, pdf) == CompressPdfRun(fileUrl, "medium", io, pdf)
  {
    SettingsFacts(level);
  }
}
