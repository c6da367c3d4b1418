/** The `image.resize` routine: download an image, fit it into (or stretch it to) the requested
    size, save it in its original format, store the result. */
module ImageResize {
  import opened Wrappers
  import opened Text
  import opened Records
  import opened Lifecycle
  import opened Media

  /** Progress checkpoints after the start write: downloaded, opened, resized, saved. */
  const Schedule: seq<nat> := [30, 50, 70, 85]

  const Folder: string := "mediaforge/resized"

  /** The format used when the decoder reports none. */
  const FallbackFormat: string := "PNG"

  /** `original_format if original_format else "PNG"`: an absent or empty format falls back. */
  function SaveFormat(original: Option<string>): (f: string)
    ensures original.Some? && original.value != "" ==> f == original.value
    ensures original.None? || original.value == "" ==> f == FallbackFormat
    ensures f != ""
  {
    if original.Some? && original.value != "" then original.value else FallbackFormat
  }

  /** thumbnail((w, h)) when the aspect ratio is kept, resize((w, h)) otherwise. */
  function Fitted(img: Image, width: int, height: int, keepAspect: bool, codec: ImageCodec): (r: Image)
    ensures !keepAspect ==> r.width == width && r.height == height && r.mode == img.mode
    ensures keepAspect ==> r == codec.thumbnail(img, width, height)
  {
    if keepAspect then codec.thumbnail(img, width, height) else Resized(img, width, height)
  }

  /** The save keyword arguments: JPEG gets quality 95 and optimisation, other formats nothing. */
  function ResizeOptions(format: string): (o: SaveOptions)
    ensures o.format == format
    ensures o.quality.Some? <==> format == "JPEG"
    ensures format == "JPEG" ==> o.quality == Some(95) && o.optimize == Some(true)
    ensures format != "JPEG" ==> o.optimize.None?
  {
    if format == "JPEG" then SaveOptions(format, Some(95), Some(true)) else SaveOptions(format, None, None)
  }

  /** The image as saved: JPEG output drops alpha and palette to RGB. */
  function ForSave(img: Image, format: string): (r: Image)
    ensures format == "JPEG" ==> !AlphaOrPalette(r.mode)
    ensures format == "JPEG" && AlphaOrPalette(img.mode) ==> r == Converted(img, "RGB")
    ensures format != "JPEG" || !AlphaOrPalette(img.mode) ==> r == img
    ensures r.width == img.width && r.height == img.height
  {
    if format == "JPEG" && AlphaOrPalette(img.mode) then Converted(img, "RGB") else img
  }

  function ResultUpload(data: Bytes, format: string): UploadRequest
  {
    UploadRequest(data, Folder, None, Some(Lower(format)))
  }

  /** The writes and the outcome of one run of the routine, given what its collaborators answer. */
  function ResizeRun(fileUrl: string, width: int, height: int, keepAspect: bool, io: Storage, codec: ImageCodec): (r: Run)
    ensures io.fetch(fileUrl).Err? ==>
      r.updates == [Begin, Fail(io.fetch(fileUrl).msg)] && r.outcome == Raised(io.fetch(fileUrl).msg)
    ensures r.outcome.Returned? ==> io.fetch(fileUrl).Ok? && codec.open(io.fetch(fileUrl).value).Ok?
    ensures io.fetch(fileUrl).Ok? && codec.open(io.fetch(fileUrl).value).Ok? ==>
      r == ResizeDecoded(codec.open(io.fetch(fileUrl).value).value, width, height, keepAspect, io, codec)
  {
    match io.fetch(fileUrl)
    case Err(m) => Stopped(Schedule, 0, m)
    case Ok(bytes) =>
      match codec.open(bytes)
      case Err(m) => Stopped(Schedule, 1, m)
      case Ok(img) => ResizeDecoded(img, width, height, keepAspect, io, codec)
  }

  /** The rest of a run once the picture is decoded. */
  function ResizeDecoded(img: Image, width: int, height: int, keepAspect: bool, io: Storage, codec: ImageCodec): (r: Run)
    ensures var format := SaveFormat(img.format);
      var saved := codec.save(ForSave(Fitted(img, width, height, keepAspect, codec), format), ResizeOptions(format));
      && (r.outcome.Returned? <==> saved.Ok? && io.upload(ResultUpload(saved.value, format)).Ok?)
      && (r.outcome.Returned? ==> io.upload(ResultUpload(saved.value, format)) == Ok(r.outcome.url))
  {
    var format := SaveFormat(img.format);
    match codec.save(ForSave(Fitted(img, width, height, keepAspect, codec), format), ResizeOptions(format))
    case Err(m) => Stopped(Schedule, 3, m)
    case Ok(data) =>
      match io.upload(ResultUpload(data, format))
      case Err(m) => Stopped(Schedule, 4, m)
      case Ok(url) => Finished(Schedule, url, Empty)
  }

  /** resize_image_task: the try block, then the handler that records the failure and re-raises. */
  method ResizeImageTask(store: RecordStore, taskId: string, fileUrl: string, width: int, height: int,
                         maintainAspectRatio: bool, io: Storage, codec: ImageCodec)
    returns (outcome: TaskOutcome)
    modifies store
    ensures outcome == ResizeRun(fileUrl, width, height, maintainAspectRatio, io, codec).outcome
    ensures store.data == AfterWrites(old(store.data), taskId, ResizeRun(fileUrl, width, height, maintainAspectRatio, io, codec).updates)
    ensures store.log == old(store.log) + Stamp(taskId, ResizeRun(fileUrl, width, height, maintainAspectRatio, io, codec).updates)
  {
    var record := new TaskReporter(store, taskId, Schedule);
    outcome := ResizeAttempt(record, fileUrl, width, height, maintainAspectRatio, io, codec);
    if outcome.Raised? {
      record.MarkFailed(outcome.error);
    }
  }

  /** The try block of resize_image_task; Raised(e) is the exception that leaves it. */
  method ResizeAttempt(record: TaskReporter, fileUrl: string, width: int, height: int,
                       maintainAspectRatio: bool, io: Storage, codec: ImageCodec)
    returns (outcome: TaskOutcome)
    requires record.Fresh() && record.schedule == Schedule
    modifies record, record.store
    ensures outcome.Raised? ==>
      record.Running()
      && ResizeRun(fileUrl, width, height, maintainAspectRatio, io, codec) == Stopped(Schedule, record.reached, outcome.error)
    ensures outcome.Returned? ==>
      record.Ended(ResizeRun(fileUrl, width, height, maintainAspectRatio, io, codec))
      && outcome == ResizeRun(fileUrl, width, height, maintainAspectRatio, io, codec).outcome
  {
    record.MarkProcessing();
    var response := io.fetch(fileUrl);
    if response.Err? {
      return Raised(response.msg);
    }
    record.SetProgress(30);
    var decoded := codec.open(response.value);
    if decoded.Err? {
      return Raised(decoded.msg);
    }
    record.SetProgress(50);
    outcome := ResizeDecodedAttempt(record, decoded.value, width, height, maintainAspectRatio, io, codec);
  }

  /** The part of the try block after the picture is decoded and progress 50 is written. */
  method ResizeDecodedAttempt(record: TaskReporter, image: Image, width: int, height: int,
                              maintainAspectRatio: bool, io: Storage, codec: ImageCodec)
    returns (outcome: TaskOutcome)
    requires record.Running() && record.schedule == Schedule && record.reached == 2
    modifies record, record.store
    ensures outcome.Raised? ==>
      record.Running()
      && ResizeDecoded(image, width, height, maintainAspectRatio, io, codec) == Stopped(Schedule, record.reached, outcome.error)
    ensures outcome.Returned? ==>
      record.Ended(ResizeDecoded(image, width, height, maintainAspectRatio, io, codec))
      && outcome == ResizeDecoded(image, width, height, maintainAspectRatio, io, codec).outcome
  {
    var originalFormat := image.format;
    var picture := image;
    if maintainAspectRatio {
      picture := codec.thumbnail(picture, width, height);
    } else {
      picture := Resized(picture, width, height);
    }
    record.SetProgress(70);
    var saveFormat := SaveFormat(originalFormat);
    var saveKwargs := ResizeOptions(saveFormat);
    if saveFormat == "JPEG" && AlphaOrPalette(picture.mode) {
      picture := Converted(picture, "RGB");
    }
    var saved := codec.save(picture, saveKwargs);
    if saved.Err? {
      return Raised(saved.msg);
    }
    record.SetProgress(85);
    var uploaded := io.upload(ResultUpload(saved.value, saveFormat));
    if uploaded.Err? {
      return Raised(uploaded.msg);
    }
    record.MarkCompleted(uploaded.value, Empty);
    outcome := Returned(uploaded.value);
  }

  /** Every run follows the schedule 10, 30, 50, 70, 85, 100. */
  lemma ResizeRunFollows(fileUrl: string, width: int, height: int, keepAspect: bool, io: Storage, codec: ImageCodec)
    ensures Follows(ResizeRun(fileUrl, width, height, keepAspect, io, codec), Schedule)
  {
    match io.fetch(fileUrl)
    case Err(m) => StoppedFollows(Schedule, 0, m);
    case Ok(bytes) =>
      match codec.open(bytes)
      case Err(m) => StoppedFollows(Schedule, 1, m);
      case Ok(img) => ResizeDecodedFollows(img, width, height, keepAspect, io, codec);
  }

  lemma ResizeDecodedFollows(img: Image, width: int, height: int, keepAspect: bool, io: Storage, codec: ImageCodec)
    ensures Follows(ResizeDecoded(img, width, height, keepAspect, io, codec), Schedule)
  {
    var format := SaveFormat(img.format);
    match codec.save(ForSave(Fitted(img, width, height, keepAspect, codec), format), ResizeOptions(format))
    case Err(m) => StoppedFollows(Schedule, 3, m);
    case Ok(data) =>
      match io.upload(ResultUpload(data, format))
      case Err(m) => StoppedFollows(Schedule, 4, m);
      case Ok(url) => FinishedFollows(Schedule, url, Empty);
  }

  /** The progress values any run writes strictly increase. */
  lemma ResizeProgressIncreases(fileUrl: string, width: int, height: int, keepAspect: bool, io: Storage, codec: ImageCodec)
    ensures StrictlyIncreasing(Pcts(ResizeRun(fileUrl, width, height, keepAspect, io, codec).updates))
  {
    ResizeRunFollows(fileUrl, width, height, keepAspect, io, codec);
    ScheduleIncreasing();
    FollowsIncreasing(ResizeRun(fileUrl, width, height, keepAspect, io, codec), Schedule);
  }

  lemma ScheduleIncreasing()
    ensures StrictlyIncreasing([StartPct] + Schedule + [DonePct])
  {
    StepsIncrease([StartPct] + Schedule + [DonePct]);
  }

  /** Without the aspect ratio the saved picture has exactly the requested size; the upload is
      tagged with the lower-cased save format; a JPEG is never saved with alpha or a palette. */
  lemma ResizedOutput(img: Image, width: int, height: int, keepAspect: bool, codec: ImageCodec)
    ensures var format := SaveFormat(img.format);
      var saved := ForSave(Fitted(img, width, height, keepAspect, codec), format);
      && (!keepAspect ==> saved.width == width && saved.height == height)
      && (format == "JPEG" ==> !AlphaOrPalette(saved.mode))
      && (img.format.None? ==> format == "PNG" && Lower(format) == "png")
  {
    assert Lower("PNG") == "png";
  }
  /** A completed run saved the fitted picture, made JPEG-safe, in the original format (PNG when
      there is none), and uploaded those bytes to the resized folder tagged with the lower-cased
      save format. */
  lemma CompletedResizeUpload(fileUrl: string, width: int, height: int, keepAspect: bool, io: Storage, codec: ImageCodec)
    requires ResizeRun(fileUrl, width, height, keepAspect, io, codec).outcome.Returned?
    ensures io.fetch(fileUrl).Ok? && codec.open(io.fetch(fileUrl).value).Ok?
    ensures var img := codec.open(io.fetch(fileUrl).value).value;
      var format := SaveFormat(img.format);
      var saved := codec.save(ForSave(Fitted(img, width, height, keepAspect, codec), format), ResizeOptions(format));
      && saved.Ok?
      && io.upload(UploadRequest(saved.value, Folder, None, Some(Lower(format))))
         == Ok(ResizeRun(fileUrl, width, height, keepAspect, io, codec).outcome.url)
  {
  }
}
