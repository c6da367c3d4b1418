/** What the server writes to and reads from a task record: the queued record a submission
    creates, the progress projection, and the cancel guard and write. */
module TaskStatus {
  import opened Wrappers
  import opened Text
  import opened Records
  import opened Lifecycle
  import opened Validation

  /** The mapping a successful submission writes: {"status": "queued", "progress": "0"}. */
  const Queued: Fields := Empty.(status := Some("queued"), progress := Some("0"))

  /** The mapping a successful cancel writes: only "status", set to "cancelled". */
  const Cancelled: Fields := Empty.(status := Some("cancelled"))

  /** The body of GET /progress/{task_id}. */
  datatype ProgressReply =
    | UnknownTask(message: string)
    | TaskProgress(status: Option<string>, progress: string, resultUrl: Option<string>, error: Option<string>)

  /** get_progress over the hash HGETALL returned: an empty hash is an unknown task (not an
      error); otherwise the status (possibly null), the progress defaulting to "0", and
      result_url and error exactly when the hash holds them. */
  function ProgressOf(rec: Fields): (p: ProgressReply)
    ensures p.UnknownTask? <==> rec == Empty
    ensures p.UnknownTask? ==> p.message == "Task ID not found"
    ensures p.TaskProgress? ==>
      && p.status == Get(rec, StatusField)
      && (Get(rec, ProgressField).Some? ==> p.progress == Get(rec, ProgressField).value)
      && (Get(rec, ProgressField).None? ==> p.progress == "0")
      && p.resultUrl == Get(rec, ResultUrlField)
      && p.error == Get(rec, ErrorField)
  {
    if rec == Empty then UnknownTask("Task ID not found")
    else TaskProgress(rec.status, FieldOr(rec, ProgressField, "0"), rec.resultUrl, rec.error)
  }

  /** The fields the projection never reads (file_url, extracted_pages) do not change what it
      reports for a task that exists. */
  lemma ProgressIgnoresOtherFields(a: Fields, b: Fields)
    requires a != Empty && b != Empty
    requires forall f :: f in {StatusField, ProgressField, ResultUrlField, ErrorField} ==> Get(a, f) == Get(b, f)
    ensures ProgressOf(a) == ProgressOf(b)
  {
    assert Get(a, StatusField) == Get(b, StatusField);
    assert Get(a, ProgressField) == Get(b, ProgressField);
    assert Get(a, ResultUrlField) == Get(b, ResultUrlField);
    assert Get(a, ErrorField) == Get(b, ErrorField);
  }

  /** cancel_task's guard over the hash HGETALL returned: an empty hash is 404, a completed or
      failed task is 400, anything else (queued, processing, cancelled, no status) is accepted. */
  function CancelGuard(rec: Fields): (r: Option<HttpError>)
    ensures r.None? <==> rec != Empty && rec.status != Some("completed") && rec.status != Some("failed")
    ensures rec == Empty ==> r == Some(HttpError(NotFound, "Task not found"))
    ensures rec != Empty && r.Some? ==> r == Some(HttpError(BadRequest, "Cannot cancel completed or failed task"))
  {
    if rec == Empty then Some(HttpError(NotFound, "Task not found"))
    else if rec.status in [Some("completed"), Some("failed")] then Some(HttpError(BadRequest, "Cannot cancel completed or failed task"))
    else None
  }

  /** A cancel changes the status to "cancelled" and no other field. */
  lemma CancelOnlyTouchesStatus(rec: Fields, f: Field)
    ensures Get(Merge(rec, Cancelled), StatusField) == Some("cancelled")
    ensures f != StatusField ==> Get(Merge(rec, Cancelled), f) == Get(rec, f)
  {
  }

  /** A cancelled task can be cancelled again: the second request is accepted too, and its
      write leaves the hash as the first one left it. */
  lemma CancelAcceptedTwice(rec: Fields)
    requires CancelGuard(rec).None?
    ensures CancelGuard(Merge(rec, Cancelled)).None?
    ensures Merge(Merge(rec, Cancelled), Cancelled) == Merge(rec, Cancelled)
  {
    assert Merge(rec, Cancelled).status == Some("cancelled");
    MergeIdempotent(rec, Cancelled);
  }

  /** A freshly submitted task reads back as queued at 0, with no result and no error. */
  lemma SubmittedProgress()
    ensures ProgressOf(Merge(Empty, Queued)) == TaskProgress(Some("queued"), "0", None, None)
    ensures CancelGuard(Merge(Empty, Queued)).None?
  {
    assert Merge(Empty, Queued) == Queued;
  }

  /** While a routine runs (after its start write and any checkpoints) the task reads back as
      processing at the last progress written, and can be cancelled. */
  lemma RunningProgress(rec: Fields, pct: nat)
    ensures ProgressOf(Merge(rec, Progressing(pct))).TaskProgress?
    ensures ProgressOf(Merge(rec, Progressing(pct))).status == Some("processing")
    ensures ProgressOf(Merge(rec, Progressing(pct))).progress == NatToString(pct)
    ensures CancelGuard(Merge(rec, Progressing(pct))).None?
  {
    assert Merge(rec, Progressing(pct)).status == Some("processing");
  }

  /** After any routine's run the task reads back as completed at 100 with its result, or as
      failed with the error; a failure keeps whatever result_url the record held, and a success
      writes no error, so an error already in the record is still reported. Either way the
      task can no longer be cancelled. */
  lemma SettledProgress(rec: Fields, run: Run)
    requires WellFormed(run)
    ensures var p := ProgressOf(Apply(rec, run.updates));
      && p.TaskProgress?
      && (run.outcome.Returned? ==>
            && p.status == Some("completed") && p.progress == NatToString(DonePct)
            && p.resultUrl == Some(run.outcome.url))
      && (run.outcome.Raised? ==>
            && p.status == Some("failed") && p.error == Some(run.outcome.error)
            && p.resultUrl == rec.resultUrl)
    ensures run.outcome.Returned? && run.updates[|run.updates| - 1].extra.error.None? ==>
      ProgressOf(Apply(rec, run.updates)).error == rec.error
    ensures CancelGuard(Apply(rec, run.updates)) == Some(HttpError(BadRequest, "Cannot cancel completed or failed task"))
  {
    SettledRecord(rec, run);
  }
}
