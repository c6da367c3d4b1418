/** The `image.convert` routine: download an image, adapt its colour mode to the target format,
    save it in that format, store the result. */
module ImageConvert {
  import opened Wrappers
  import opened Text
  import opened Records
  import opened Lifecycle
  import opened Media

  /** Progress checkpoints after the start write: downloaded, converted, saved. */
  const Schedule: seq<nat> := [30, 60, 80]

  const Folder: string := "mediaforge/converted"

  /** The colour mode the picture is saved in: JPEG drops alpha and palette, PNG always gets an
      alpha channel, any other target keeps the mode. The target is compared upper-cased. */
  function TargetMode(mode: string, target: string): (m: string)
    ensures Upper(target) == "JPEG" && AlphaOrPalette(mode) ==> m == "RGB"
    ensures Upper(target) == "JPEG" && !AlphaOrPalette(mode) ==> m == mode
    ensures Upper(target) == "PNG" ==> m == "RGBA"
    ensures Upper(target) != "JPEG" && Upper(target) != "PNG" ==> m == mode
    ensures Upper(target) == "JPEG" ==> !AlphaOrPalette(m)
  {
    if Upper(target) == "JPEG" && AlphaOrPalette(mode) then "RGB"
    else if Upper(target) == "PNG" && mode != "RGBA" then "RGBA"
    else mode
  }

  /** The picture after the mode adaptation: converted only when the mode changes. */
  function Adapted(img: Image, target: string): (r: Image)
    ensures r.mode == TargetMode(img.mode, target)
    ensures r.width == img.width && r.height == img.height
    ensures TargetMode(img.mode, target) == img.mode ==> r == img
    ensures TargetMode(img.mode, target) != img.mode ==> r == Converted(img, TargetMode(img.mode, target))
  {
    if Upper(target) == "JPEG" && AlphaOrPalette(img.mode) then Converted(img, "RGB")
    else if Upper(target) == "PNG" && img.mode != "RGBA" then Converted(img, "RGBA")
    else img
  }

  /** The save keyword arguments: the upper-cased format, plus quality 95 and optimisation for JPEG. */
  function ConvertOptions(target: string): (o: SaveOptions)
    ensures o.format == Upper(target)
    ensures o.quality.Some? <==> Upper(target) == "JPEG"
    ensures o.optimize.Some? <==> Upper(target) == "JPEG"
    ensures o.quality.Some? ==> o.quality == Some(95) && o.optimize == Some(true)
  {
    if Upper(target) == "JPEG" then SaveOptions(Upper(target), Some(95), Some(true))
    else SaveOptions(Upper(target), None, None)
  }

  function ResultUpload(data: Bytes, target: string): UploadRequest
  {
    UploadRequest(data, Folder, None, Some(Lower(target)))
  }

  /** The writes and the outcome of one run of the routine, given what its collaborators answer. */
  function ConvertRun(fileUrl: string, target: string, io: Storage, codec: ImageCodec): (r: Run)
    ensures io.fetch(fileUrl).Err? ==>
      r.updates == [Begin, Fail(io.fetch(fileUrl).msg)] && r.outcome == Raised(io.fetch(fileUrl).msg)
    ensures r.outcome.Returned? ==> io.fetch(fileUrl).Ok? && codec.open(io.fetch(fileUrl).value).Ok?
    ensures io.fetch(fileUrl).Ok? && codec.open(io.fetch(fileUrl).value).Ok? ==>
      r == ConvertDecoded(codec.open(io.fetch(fileUrl).value).value, target, io, codec)
  {
    match io.fetch(fileUrl)
    case Err(m) => Stopped(Schedule, 0, m)
    case Ok(bytes) =>
      match codec.open(bytes)
      case Err(m) => Stopped(Schedule, 1, m)
      case Ok(img) => ConvertDecoded(img, target, io, codec)
  }

  /** The rest of a run once the picture is decoded. */
  function ConvertDecoded(img: Image, target: string, io: Storage, codec: ImageCodec): (r: Run)
    ensures var saved := codec.save(Adapted(img, target), ConvertOptions(target));
      && (r.outcome.Returned? <==> saved.Ok? && io.upload(ResultUpload(saved.value, target)).Ok?)
      && (r.outcome.Returned? ==> io.upload(ResultUpload(saved.value, target)) == Ok(r.outcome.url))
  {
    match codec.save(Adapted(img, target), ConvertOptions(target))
    case Err(m) => Stopped(Schedule, 2, m)
    case Ok(data) =>
      match io.upload(ResultUpload(data, target))
      case Err(m) => Stopped(Schedule, 3, m)
      case Ok(url) => Finished(Schedule, url, Empty)
  }

  /** convert_image_task: the try block, then the handler that records the failure and re-raises. */
  method ConvertImageTask(store: RecordStore, taskId: string, fileUrl: string, targetFormat: string,
                          io: Storage, codec: ImageCodec)
    returns (outcome: TaskOutcome)
    modifies store
    ensures outcome == ConvertRun(fileUrl, targetFormat, io, codec).outcome
    ensures store.data == AfterWrites(old(store.data), taskId, ConvertRun(fileUrl, targetFormat, io, codec).updates)
    ensures store.log == old(store.log) + Stamp(taskId, ConvertRun(fileUrl, targetFormat, io, codec).updates)
  {
    var record := new TaskReporter(store, taskId, Schedule);
    outcome := ConvertAttempt(record, fileUrl, targetFormat, io, codec);
    if outcome.Raised? {
      record.MarkFailed(outcome.error);
    }
  }

  /** The try block of convert_image_task; Raised(e) is the exception that leaves it. */
  method ConvertAttempt(record: TaskReporter, fileUrl: string, targetFormat: string,
                        io: Storage, codec: ImageCodec)
    returns (outcome: TaskOutcome)
    requires record.Fresh() && record.schedule == Schedule
    modifies record, record.store
    ensures outcome.Raised? ==>
      record.Running() && ConvertRun(fileUrl, targetFormat, io, codec) == Stopped(Schedule, record.reached, outcome.error)
    ensures outcome.Returned? ==>
      record.Ended(ConvertRun(fileUrl, targetFormat, io, codec))
      && outcome == ConvertRun(fileUrl, targetFormat, io, codec).outcome
  {
    record.MarkProcessing();
    var response := io.fetch(fileUrl);
    if response.Err? {
      return Raised(response.msg);
    }
    record.SetProgress(30);
    var decoded := codec.open(response.value);
    if decoded.Err? {
      return Raised(decoded.msg);
    }
    outcome := ConvertDecodedAttempt(record, decoded.value, targetFormat, io, codec);
  }

  /** The part of the try block after the picture is decoded. */
  method ConvertDecodedAttempt(record: TaskReporter, image: Image, targetFormat: string,
                               io: Storage, codec: ImageCodec)
    returns (outcome: TaskOutcome)
    requires record.Running() && record.schedule == Schedule && record.reached == 1
    modifies record, record.store
    ensures outcome.Raised? ==>
      record.Running() && ConvertDecoded(image, targetFormat, io, codec) == Stopped(Schedule, record.reached, outcome.error)
    ensures outcome.Returned? ==>
      record.Ended(ConvertDecoded(image, targetFormat, io, codec))
      && outcome == ConvertDecoded(image, targetFormat, io, codec).outcome
  {
    var picture := image;
    var target := Upper(targetFormat);
    if target == "JPEG" && AlphaOrPalette(picture.mode) {
      picture := Converted(picture, "RGB");
    } else if target == "PNG" && picture.mode != "RGBA" {
      picture := Converted(picture, "RGBA");
    }
    record.SetProgress(60);
    var saveKwargs := SaveOptions(target, None, None);
    if target == "JPEG" {
      saveKwargs := saveKwargs.(quality := Some(95), optimize := Some(true));
    }
    var saved := codec.save(picture, saveKwargs);
    if saved.Err? {
      return Raised(saved.msg);
    }
    record.SetProgress(80);
    var uploaded := io.upload(ResultUpload(saved.value, targetFormat));
    if uploaded.Err? {
      return Raised(uploaded.msg);
    }
    record.MarkCompleted(uploaded.value, Empty);
    outcome := Returned(uploaded.value);
  }

  /** Every run follows the schedule 10, 30, 60, 80, 100. */
  lemma ConvertRunFollows(fileUrl: string, target: string, io: Storage, codec: ImageCodec)
    ensures Follows(ConvertRun(fileUrl, target, io, codec), Schedule)
  {
    match io.fetch(fileUrl)
    case Err(m) => StoppedFollows(Schedule, 0, m);
    case Ok(bytes) =>
      match codec.open(bytes)
      case Err(m) => StoppedFollows(Schedule, 1, m);
      case Ok(img) => ConvertDecodedFollows(img, target, io, codec);
  }

  lemma ConvertDecodedFollows(img: Image, target: string, io: Storage, codec: ImageCodec)
    ensures Follows(ConvertDecoded(img, target, io, codec), Schedule)
  {
    match codec.save(Adapted(img, target), ConvertOptions(target))
    case Err(m) => StoppedFollows(Schedule, 2, m);
    case Ok(data) =>
      match io.upload(ResultUpload(data, target))
      case Err(m) => StoppedFollows(Schedule, 3, m);
      case Ok(url) => FinishedFollows(Schedule, url, Empty);
  }

  /** The progress values any run writes strictly increase. */
  lemma ConvertProgressIncreases(fileUrl: string, target: string, io: Storage, codec: ImageCodec)
    ensures StrictlyIncreasing(Pcts(ConvertRun(fileUrl, target, io, codec).updates))
  {
    ConvertRunFollows(fileUrl, target, io, codec);
    ScheduleIncreasing();
    FollowsIncreasing(ConvertRun(fileUrl, target, io, codec), Schedule);
  }

  lemma ScheduleIncreasing()
    ensures StrictlyIncreasing([StartPct] + Schedule + [DonePct])
  {
    StepsIncrease([StartPct] + Schedule + [DonePct]);
  }

  /** The target is matched case-insensitively for the mode and the save format, while the
      upload names the lower-cased target: "jpeg" and "JPEG" save the same picture the same way. */
  lemma TargetCaseInsensitive(img: Image)
    ensures Adapted(img, "jpeg") == Adapted(img, "JPEG")
    ensures ConvertOptions("jpeg") == ConvertOptions("JPEG") == SaveOptions("JPEG", Some(95), Some(true))
    ensures Adapted(img, "png").mode == "RGBA"
    ensures ConvertOptions("png") == SaveOptions("PNG", None, None)
  {
    assert Upper("jpeg") == "JPEG";
    assert Upper("JPEG") == "JPEG";
    assert Upper("png") == "PNG";
  }

  /** "jpg", which the convert endpoint accepts, upper-cases to "JPG", not "JPEG": it gets no
      mode change and no quality or optimisation setting. */
  lemma JpgIsNotJpeg(img: Image)
    ensures Adapted(img, "jpg") == img
    ensures ConvertOptions("jpg") == SaveOptions("JPG", None, None)
  {
    assert Upper("jpg") == "JPG";
  }
}
