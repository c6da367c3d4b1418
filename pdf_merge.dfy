/** The `pdf.merge` routine: download every source PDF in order, append all of its pages to
    one new document, store the result. */
module PdfMerge {
  import opened Wrappers
  import opened Text
  import opened Records
  import opened Lifecycle
  import opened Media

  /** The message of the ValueError raised for fewer than two sources. */
  const TooFewSources: string := "At least 2 PDF files are required for merging"

  const Folder: string := "mediaforge/pdf_merged"

  /** Share of the progress bar the downloads take. */
  const LoadShare: nat := 70

  /** int(10 + (i + 1) * (70 / n)): the progress written after the i-th source (0-based). Every
      per-source checkpoint lies between the start write and 80, and the last one is 80. */
  function MergeProgress(i: nat, n: nat): (p: nat)
    requires i < n
    ensures StartPct <= p <= StartPct + LoadShare
    ensures i == n - 1 ==> p == StartPct + LoadShare
  {
    MulDivMonotone(i + 1, n, LoadShare, n);
    DivExact(LoadShare, n);
    StartPct + ((i + 1) * LoadShare) / n
  }

  /** Progress after each source never falls back. */
  lemma MergeProgressMonotone(i: nat, j: nat, n: nat)
    requires i <= j < n
    ensures MergeProgress(i, n) <= MergeProgress(j, n)
  {
    MulDivMonotone(i + 1, j + 1, LoadShare, n);
  }

  lemma DivMonotone(x: nat, y: nat, n: nat)
    requires x <= y && n > 0
    ensures x / n <= y / n
  {
    if x / n > y / n {
      MulLe(y / n + 1, x / n, n);
      assert false;
    }
  }
  lemma MulLe(a: nat, b: nat, c: nat)
    requires a <= b
    ensures a * c <= b * c
  {
    assert b * c == a * c + (b - a) * c;
  }
  lemma MulDivMonotone(a: nat, b: nat, c: nat, n: nat)
    requires a <= b && n > 0
    ensures (a * c) / n <= (b * c) / n
  {
    MulLe(a, b, c);
    DivMonotone(a * c, b * c, n);
  }

  lemma DivExact(c: nat, n: nat)
    requires n > 0
    ensures (n * c) / n == c
  {
    var q := (n * c) / n;
    assert c * n == n * c;
    if q < c {
      MulLe(q + 1, c, n);
      assert false;
    } else if q > c {
      MulLe(c + 1, q, n);
      assert false;
    }
  }

  /** With more than 70 sources the first checkpoint writes "10" again. */
  lemma MergeProgressCanRepeatStart()
    ensures MergeProgress(0, 71) == StartPct
  {
  }

  /** The checkpoints of a merge of n sources: one per source, then saved (85) and stored (90). */
  function MergeSchedule(n: nat): (s: seq<nat>)
    ensures |s| == n + 2
    ensures forall i :: 0 <= i < n ==> s[i] == MergeProgress(i, n)
    ensures s[n] == 85 && s[n + 1] == 90
  {
    seq(n, i requires 0 <= i < n => MergeProgress(i, n)) + [85, 90]
  }

  /** One source: download it, then open it as a PDF. */
  function LoadPdf(url: string, io: Storage, pdf: PdfCodec): Result<Document>
  {
    match io.fetch(url)
    case Err(m) => Err(m)
    case Ok(bytes) => pdf.open(bytes)
  }

  /** Where the download loop stands: every page so far, or the first source that could not be
      loaded. */
  datatype Gathered = Pages(pages: Document) | Broke(at: nat, msg: string)

  /** The download loop over the sources, in order; the first failure ends it. */
  function Gather(urls: seq<string>, io: Storage, pdf: PdfCodec): (g: Gathered)
    ensures g.Broke? ==> g.at < |urls| && LoadPdf(urls[g.at], io, pdf) == Err(g.msg)
    ensures g.Broke? ==> forall j :: 0 <= j < g.at ==> LoadPdf(urls[j], io, pdf).Ok?
    ensures g.Pages? <==> forall j :: 0 <= j < |urls| ==> LoadPdf(urls[j], io, pdf).Ok?
    decreases |urls|
  {
    if urls == [] then Pages([])
    else
      var init := urls[..|urls| - 1];
      assert forall j :: 0 <= j < |init| ==> init[j] == urls[j];
      match Gather(init, io, pdf)
      case Broke(at, m) => Broke(at, m)
      case Pages(pages) =>
        match LoadPdf(urls[|urls| - 1], io, pdf)
        case Err(m) => Broke(|urls| - 1, m)
        case Ok(doc) => Pages(pages + doc)
  }

  /** The page total of a complete merge is the sum of the sources' page counts. */
  function PageTotal(urls: seq<string>, io: Storage, pdf: PdfCodec): nat
    requires forall j :: 0 <= j < |urls| ==> LoadPdf(urls[j], io, pdf).Ok?
    decreases |urls|
  {
    if urls == [] then 0
    else PageTotal(urls[..|urls| - 1], io, pdf) + |LoadPdf(urls[|urls| - 1], io, pdf).value|
  }

  lemma {:induction false} GatherPageCount(urls: seq<string>, io: Storage, pdf: PdfCodec)
    requires Gather(urls, io, pdf).Pages?
    ensures |Gather(urls, io, pdf).pages| == PageTotal(urls, io, pdf)
    decreases |urls|
  {
    if urls != [] {
      GatherPageCount(urls[..|urls| - 1], io, pdf);
    }
  }

  /** Every page of every source appears in the merge, in source order: the pages of source k
      start right after the pages of the sources before it. */
  lemma {:induction false} GatherKeepsOrder(urls: seq<string>, k: nat, io: Storage, pdf: PdfCodec)
    requires Gather(urls, io, pdf).Pages? && k < |urls|
    ensures var before := PageTotal(urls[..k], io, pdf);
      var doc := LoadPdf(urls[k], io, pdf).value;
      before + |doc| <= |Gather(urls, io, pdf).pages|
      && Gather(urls, io, pdf).pages[before .. before + |doc|] == doc
    decreases |urls|
  {
    var init := urls[..|urls| - 1];
    var g := Gather(urls, io, pdf);
    var gi := Gather(init, io, pdf);
    GatherPageCount(init, io, pdf);
    if k == |urls| - 1 {
      assert urls[..k] == init;
    } else {
      GatherKeepsOrder(init, k, io, pdf);
      assert init[..k] == urls[..k];
      assert init[k] == urls[k];
      assert g.pages == gi.pages + LoadPdf(urls[|urls| - 1], io, pdf).value;
    }
  }

  /** Once a source has failed, later sources change nothing. */
  lemma {:induction false} GatherStaysBroken(urls: seq<string>, i: nat, io: Storage, pdf: PdfCodec)
    requires i <= |urls| && Gather(urls[..i], io, pdf).Broke?
    ensures Gather(urls, io, pdf) == Gather(urls[..i], io, pdf)
    decreases |urls| - i
  {
    if i < |urls| {
      var next := urls[..i + 1];
      assert next[..i] == urls[..i];
      GatherStaysBroken(urls, i + 1, io, pdf);
    } else {
      assert urls[..i] == urls;
    }
  }

  function ResultUpload(data: Bytes): UploadRequest
  {
    UploadRequest(data, Folder, Some("raw"), Some("pdf"))
  }

  /** The writes and the outcome of one run of the routine, given what its collaborators answer. */
  function MergeRun(urls: seq<string>, io: Storage, pdf: PdfCodec): (r: Run)
    ensures |urls| < 2 ==> r.updates == [Begin, Fail(TooFewSources)] && r.outcome == Raised(TooFewSources)
    ensures r.outcome.Returned? ==>
      && |urls| >= 2 && Gather(urls, io, pdf).Pages?
      && pdf.save(Gather(urls, io, pdf).pages, None).Ok?
      && io.upload(ResultUpload(pdf.save(Gather(urls, io, pdf).pages, None).value)) == Ok(r.outcome.url)
    ensures (&& |urls| >= 2 && Gather(urls, io, pdf).Pages?
             && pdf.save(Gather(urls, io, pdf).pages, None).Ok?
             && io.upload(ResultUpload(pdf.save(Gather(urls, io, pdf).pages, None).value)).Ok?) ==>
      r.outcome == Returned(io.upload(ResultUpload(pdf.save(Gather(urls, io, pdf).pages, None).value)).value)
  {
    var n := |urls|;
    var schedule := MergeSchedule(n);
    if n < 2 then Stopped(schedule, 0, TooFewSources)
    else
      match Gather(urls, io, pdf)
      case Broke(at, m) => Stopped(schedule, at, m)
      case Pages(pages) =>
        match pdf.save(pages, None)
        case Err(m) => Stopped(schedule, n + 1, m)
        case Ok(data) =>
          match io.upload(ResultUpload(data))
          case Err(m) => Stopped(schedule, n + 2, m)
          case Ok(url) => Finished(schedule, url, Empty)
  }

  /** merge_pdf_task: the try block, then the handler that records the failure and re-raises. */
  method MergePdfTask(store: RecordStore, taskId: string, pdfUrls: seq<string>, io: Storage, pdf: PdfCodec)
    returns (outcome: TaskOutcome)
    modifies store
    ensures outcome == MergeRun(pdfUrls, io, pdf).outcome
    ensures store.data == AfterWrites(old(store.data), taskId, MergeRun(pdfUrls, io, pdf).updates)
    ensures store.log == old(store.log) + Stamp(taskId, MergeRun(pdfUrls, io, pdf).updates)
  {
    var record := new TaskReporter(store, taskId, MergeSchedule(|pdfUrls|));
    outcome := MergeAttempt(record, pdfUrls, io, pdf);
    if outcome.Raised? {
      record.MarkFailed(outcome.error);
    }
  }

  /** The try block of merge_pdf_task; Raised(e) is the exception that leaves it. */
  method MergeAttempt(record: TaskReporter, pdfUrls: seq<string>, io: Storage, pdf: PdfCodec)
    returns (outcome: TaskOutcome)
    requires record.Fresh() && record.schedule == MergeSchedule(|pdfUrls|)
    modifies record, record.store
    ensures outcome.Raised? ==>
      record.Running() && MergeRun(pdfUrls, io, pdf) == Stopped(record.schedule, record.reached, outcome.error)
    ensures outcome.Returned? ==>
      record.Ended(MergeRun(pdfUrls, io, pdf)) && outcome == MergeRun(pdfUrls, io, pdf).outcome
  {
    record.MarkProcessing();
    if |pdfUrls| < 2 {
      return Raised(TooFewSources);
    }
    var totalPdfs := |pdfUrls|;
    var mergedPdf: Document := [];
    for i := 0 to totalPdfs
      invariant record.Running() && record.reached == i
      invariant Gather(pdfUrls[..i], io, pdf) == Pages(mergedPdf)
    {
      var response := io.fetch(pdfUrls[i]);
      if response.Err? {
        BrokeAt(pdfUrls, i, io, pdf);
        return Raised(response.msg);
      }
      var parsed := pdf.open(response.value);
      if parsed.Err? {
        BrokeAt(pdfUrls, i, io, pdf);
        return Raised(parsed.msg);
      }
      assert pdfUrls[..i + 1][..i] == pdfUrls[..i];
      mergedPdf := mergedPdf + parsed.value;
      record.SetProgress(MergeProgress(i, totalPdfs));
    }
    assert pdfUrls[..totalPdfs] == pdfUrls;
    record.SetProgress(85);
    var merged := pdf.save(mergedPdf, None);
    if merged.Err? {
      return Raised(merged.msg);
    }
    record.SetProgress(90);
    var uploaded := io.upload(ResultUpload(merged.value));
    if uploaded.Err? {
      return Raised(uploaded.msg);
    }
    record.MarkCompleted(uploaded.value, Empty);
    outcome := Returned(uploaded.value);
  }

  /** The loop stops at the first source that cannot be loaded, and so does the whole run. */
  lemma BrokeAt(urls: seq<string>, i: nat, io: Storage, pdf: PdfCodec)
    requires 2 <= |urls| && i < |urls| && Gather(urls[..i], io, pdf).Pages?
    requires LoadPdf(urls[i], io, pdf).Err?
    ensures MergeRun(urls, io, pdf) == Stopped(MergeSchedule(|urls|), i, LoadPdf(urls[i], io, pdf).msg)
  {
    var next := urls[..i + 1];
    assert next[..i] == urls[..i];
    GatherStaysBroken(urls, i + 1, io, pdf);
  }

  /** Every run follows its schedule, and progress never moves back. */
  lemma MergeRunFollows(urls: seq<string>, io: Storage, pdf: PdfCodec)
    ensures Follows(MergeRun(urls, io, pdf), MergeSchedule(|urls|))
    ensures NonDecreasing(Pcts(MergeRun(urls, io, pdf).updates))
  {
    var n := |urls|;
    var schedule := MergeSchedule(n);
    if n < 2 {
      StoppedFollows(schedule, 0, TooFewSources);
    } else {
      match Gather(urls, io, pdf)
      case Broke(at, m) => StoppedFollows(schedule, at, m);
      case Pages(pages) =>
        match pdf.save(pages, None)
        case Err(m) => StoppedFollows(schedule, n + 1, m);
        case Ok(data) =>
          match io.upload(ResultUpload(data))
          case Err(m) => StoppedFollows(schedule, n + 2, m);
          case Ok(url) => FinishedFollows(schedule, url, Empty);
    }
    ScheduleNonDecreasing(n);
    FollowsNonDecreasing(MergeRun(urls, io, pdf), schedule);
  }

  lemma ScheduleNonDecreasing(n: nat)
    ensures NonDecreasing([StartPct] + MergeSchedule(n) + [DonePct])
  {
    var full := [StartPct] + MergeSchedule(n) + [DonePct];
    forall i | 0 < i < |full|
      ensures full[i - 1] <= full[i]
    {
      if 1 < i <= n {
        MergeProgressMonotone(i - 2, i - 1, n);
      }
    }
    StepsNonDecreasing(full);
  }

  /** A completed merge stored every page of every source. */
  lemma CompletedMergeSavedAllPages(urls: seq<string>, io: Storage, pdf: PdfCodec)
    requires MergeRun(urls, io, pdf).outcome.Returned?
    ensures |urls| >= 2 && Gather(urls, io, pdf).Pages?
    ensures forall j :: 0 <= j < |urls| ==> LoadPdf(urls[j], io, pdf).Ok?
    ensures |Gather(urls, io, pdf).pages| == PageTotal(urls, io, pdf)
    ensures pdf.save(Gather(urls, io, pdf).pages, None).Ok?
  {
    GatherPageCount(urls, io, pdf);
  }

  /** Fewer than two sources fail right after the start write with the fixed message. */
  lemma TooFewSourcesFails(rec: Fields, urls: seq<string>, io: Storage, pdf: PdfCodec)
    requires |urls| < 2
    ensures MergeRun(urls, io, pdf).outcome == Raised(TooFewSources)
    ensures Pcts(MergeRun(urls, io, pdf).updates) == [StartPct]
    ensures Apply(rec, MergeRun(urls, io, pdf).updates) == Merge(rec, Failed(StartPct, TooFewSources))
  {
    StoppedFollows(MergeSchedule(|urls|), 0, TooFewSources);
    StoppedRecord(rec, MergeSchedule(|urls|), 0, TooFewSources);
    FailStep(rec, StartPct, TooFewSources);
  }
}
