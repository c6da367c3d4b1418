/** The `image.compress` routine: download an image, re-encode it as JPEG at the requested
    quality, store the result. */
module ImageCompress {
  import opened Wrappers
  import opened Records
  import opened Lifecycle
  import opened Media

  /** Progress checkpoints after the start write: downloaded, converted, saved. */
  const Schedule: seq<nat> := [30, 50, 70]

  const Folder: string := "mediaforge/compressed"

  /** The picture as saved: alpha and palette are dropped to RGB, any other mode is kept. */
  function JpegReady(img: Image): (r: Image)
    ensures !AlphaOrPalette(r.mode)
    ensures AlphaOrPalette(img.mode) ==> r == Converted(img, "RGB")
    ensures !AlphaOrPalette(img.mode) ==> r == img
    ensures r.width == img.width && r.height == img.height
  {
    if AlphaOrPalette(img.mode) then Converted(img, "RGB") else img
  }

  /** The save keyword arguments: always JPEG, the caller's quality, optimised. */
  function CompressOptions(quality: int): (o: SaveOptions)
    ensures o.format == "JPEG" && o.quality == Some(quality) && o.optimize == Some(true)
  {
    SaveOptions("JPEG", Some(quality), Some(true))
  }

  function ResultUpload(data: Bytes): UploadRequest
  {
    UploadRequest(data, Folder, None, Some("jpg"))
  }

  /** The writes and the outcome of one run of the routine, given what its collaborators answer. */
  function CompressImageRun(fileUrl: string, quality: int, io: Storage, codec: ImageCodec): (r: Run)
    ensures io.fetch(fileUrl).Err? ==>
      r.updates == [Begin, Fail(io.fetch(fileUrl).msg)] && r.outcome == Raised(io.fetch(fileUrl).msg)
    ensures r.outcome.Returned? ==> io.fetch(fileUrl).Ok? && codec.open(io.fetch(fileUrl).value).Ok?
    ensures io.fetch(fileUrl).Ok? && codec.open(io.fetch(fileUrl).value).Ok? ==>
      r == CompressDecoded(codec.open(io.fetch(fileUrl).value).value, quality, io, codec)
  {
    match io.fetch(fileUrl)
    case Err(m) => Stopped(Schedule, 0, m)
    case Ok(bytes) =>
      match codec.open(bytes)
      case Err(m) => Stopped(Schedule, 1, m)
      case Ok(img) => CompressDecoded(img, quality, io, codec)
  }

  /** The rest of a run once the picture is decoded. */
  function CompressDecoded(img: Image, quality: int, io: Storage, codec: ImageCodec): (r: Run)
    ensures var saved := codec.save(JpegReady(img), CompressOptions(quality));
      && (r.outcome.Returned? <==> saved.Ok? && io.upload(ResultUpload(saved.value)).Ok?)
      && (r.outcome.Returned? ==> io.upload(ResultUpload(saved.value)) == Ok(r.outcome.url))
  {
    match codec.save(JpegReady(img), CompressOptions(quality))
    case Err(m) => Stopped(Schedule, 2, m)
    case Ok(data) =>
      match io.upload(ResultUpload(data))
      case Err(m) => Stopped(Schedule, 3, m)
      case Ok(url) => Finished(Schedule, url, Empty)
  }

  /** compress_image_task: the try block, then the handler that records the failure and re-raises. */
  method CompressImageTask(store: RecordStore, taskId: string, fileUrl: string, quality: int,
                           io: Storage, codec: ImageCodec)
    returns (outcome: TaskOutcome)
    modifies store
    ensures outcome == CompressImageRun(fileUrl, quality, io, codec).outcome
    ensures store.data == AfterWrites(old(store.data), taskId, CompressImageRun(fileUrl, quality, io, codec).updates)
    ensures store.log == old(store.log) + Stamp(taskId, CompressImageRun(fileUrl, quality, io, codec).updates)
  {
    var record := new TaskReporter(store, taskId, Schedule);
    outcome := CompressImageAttempt(record, fileUrl, quality, io, codec);
    if outcome.Raised? {
      record.MarkFailed(outcome.error);
    }
  }

  /** The try block of compress_image_task; Raised(e) is the exception that leaves it. */
  method CompressImageAttempt(record: TaskReporter, fileUrl: string, quality: int,
                              io: Storage, codec: ImageCodec)
    returns (outcome: TaskOutcome)
    requires record.Fresh() && record.schedule == Schedule
    modifies record, record.store
    ensures outcome.Raised? ==>
      record.Running() && CompressImageRun(fileUrl, quality, io, codec) == Stopped(Schedule, record.reached, outcome.error)
    ensures outcome.Returned? ==>
      record.Ended(CompressImageRun(fileUrl, quality, io, codec))
      && outcome == CompressImageRun(fileUrl, quality, io, codec).outcome
  {
    record.MarkProcessing();
    var response := io.fetch(fileUrl);
    if response.Err? {
      return Raised(response.msg);
    }
    record.SetProgress(30);
    var decoded := codec.open(response.value);
    if decoded.Err? {
      return Raised(decoded.msg);
    }
    outcome := CompressDecodedAttempt(record, decoded.value, quality, io, codec);
  }

  /** The part of the try block after the picture is decoded. */
  method CompressDecodedAttempt(record: TaskReporter, decoded: Image, quality: int,
                                io: Storage, codec: ImageCodec)
    returns (outcome: TaskOutcome)
    requires record.Running() && record.schedule == Schedule && record.reached == 1
    modifies record, record.store
    ensures outcome.Raised? ==>
      record.Running() && CompressDecoded(decoded, quality, io, codec) == Stopped(Schedule, record.reached, outcome.error)
    ensures outcome.Returned? ==>
      record.Ended(CompressDecoded(decoded, quality, io, codec))
      && outcome == CompressDecoded(decoded, quality, io, codec).outcome
  {
    var image := decoded;
    if AlphaOrPalette(image.mode) {
      image := Converted(image, "RGB");
    }
    record.SetProgress(50);
    var saved := codec.save(image, SaveOptions("JPEG", Some(quality), Some(true)));
    if saved.Err? {
      return Raised(saved.msg);
    }
    record.SetProgress(70);
    var uploaded := io.upload(ResultUpload(saved.value));
    if uploaded.Err? {
      return Raised(uploaded.msg);
    }
    record.MarkCompleted(uploaded.value, Empty);
    outcome := Returned(uploaded.value);
  }

  /** Every run follows the schedule 10, 30, 50, 70, 100. */
  lemma CompressImageRunFollows(fileUrl: string, quality: int, io: Storage, codec: ImageCodec)
    ensures Follows(CompressImageRun(fileUrl, quality, io, codec), Schedule)
  {
    match io.fetch(fileUrl)
    case Err(m) => StoppedFollows(Schedule, 0, m);
    case Ok(bytes) =>
      match codec.open(bytes)
      case Err(m) => StoppedFollows(Schedule, 1, m);
      case Ok(img) => CompressDecodedFollows(img, quality, io, codec);
  }

  lemma CompressDecodedFollows(img: Image, quality: int, io: Storage, codec: ImageCodec)
    ensures Follows(CompressDecoded(img, quality, io, codec), Schedule)
  {
    match codec.save(JpegReady(img), CompressOptions(quality))
    case Err(m) => StoppedFollows(Schedule, 2, m);
    case Ok(data) =>
      match io.upload(ResultUpload(data))
      case Err(m) => StoppedFollows(Schedule, 3, m);
      case Ok(url) => FinishedFollows(Schedule, url, Empty);
  }

  /** The progress values any run writes strictly increase. */
  lemma CompressImageProgressIncreases(fileUrl: string, quality: int, io: Storage, codec: ImageCodec)
    ensures StrictlyIncreasing(Pcts(CompressImageRun(fileUrl, quality, io, codec).updates))
  {
    CompressImageRunFollows(fileUrl, quality, io, codec);
    ScheduleIncreasing();
    FollowsIncreasing(CompressImageRun(fileUrl, quality, io, codec), Schedule);
  }

  lemma ScheduleIncreasing()
    ensures StrictlyIncreasing([StartPct] + Schedule + [DonePct])
  {
    StepsIncrease([StartPct] + Schedule + [DonePct]);
  }

  /** A completed run saved the downloaded picture as an RGB-compatible JPEG at exactly the
      requested quality and uploaded the bytes under the "jpg" format. */
  lemma CompressedAsJpeg(fileUrl: string, quality: int, io: Storage, codec: ImageCodec)
    requires CompressImageRun(fileUrl, quality, io, codec).outcome.Returned?
    ensures io.fetch(fileUrl).Ok? && codec.open(io.fetch(fileUrl).value).Ok?
    ensures var img := codec.open(io.fetch(fileUrl).value).value;
      var saved := codec.save(JpegReady(img), SaveOptions("JPEG", Some(quality), Some(true)));
      && !AlphaOrPalette(JpegReady(img).mode)
      && saved.Ok?
      && io.upload(UploadRequest(saved.value, Folder, None, Some("jpg"))) == Ok(CompressImageRun(fileUrl, quality, io, codec).outcome.url)
  {
  }
}
