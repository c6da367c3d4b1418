/** The record lifecycle every worker routine drives: one `processing`/10 write, progress-only
    checkpoint writes, then exactly one terminal write (`completed` with the result, or `failed`
    with the error) issued from the routine's exception handler. */
module Lifecycle {
  import opened Wrappers
  import opened Text
  import opened Records

  /** One HSET a worker issues against its own task record. */
  datatype Update =
    | Begin                                   // {"status": "processing", "progress": "10"}
    | Checkpoint(pct: nat)                    // {"progress": str(pct)}
    | Complete(url: string, extra: Fields)    // {"status": "completed", "progress": "100", "result_url": url, **extra}
    | Fail(error: string)                     // {"status": "failed", "error": str(e)}

  /** What the routine hands back to the broker: a return value or a re-raised exception. */
  datatype TaskOutcome = Returned(url: string) | Raised(error: string)

  /** The writes a routine issues, in order, and how it ends. */
  datatype Run = Run(updates: seq<Update>, outcome: TaskOutcome)

  const StartPct: nat := 10
  const DonePct: nat := 100

  /** The mapping one update writes: every write but a checkpoint sets the status, a checkpoint
      writes the progress alone, and a failure leaves the progress as it was. */
  function Render(u: Update): (r: Fields)
    ensures r.status.Some? <==> !u.Checkpoint?
    ensures u.Begin? ==> r.status == Some("processing") && r.progress == Some(NatToString(StartPct))
    ensures u.Checkpoint? ==>
      && r.progress == Some(NatToString(u.pct))
      && r.resultUrl.None? && r.error.None? && r.fileUrl.None? && r.extractedPages.None?
    ensures u.Complete? ==>
      && r.status == Some("completed") && r.progress == Some(NatToString(DonePct)) && r.resultUrl == Some(u.url)
      && r.error == u.extra.error && r.fileUrl == u.extra.fileUrl && r.extractedPages == u.extra.extractedPages
    ensures u.Fail? ==>
      && r.status == Some("failed") && r.error == Some(u.error)
      && r.progress.None? && r.resultUrl.None? && r.fileUrl.None? && r.extractedPages.None?
  {
    match u
    case Begin => Progressing(StartPct)
    case Checkpoint(p) => Empty.(progress := Some(NatToString(p)))
    case Complete(url, extra) =>
      Merge(extra, Empty.(status := Some("completed"), progress := Some(NatToString(DonePct)), resultUrl := Some(url)))
    case Fail(e) => Empty.(status := Some("failed"), error := Some(e))
  }

  /** The record after the updates have been applied, oldest first, to rec. */
  function Apply(rec: Fields, us: seq<Update>): Fields
    decreases |us|
  {
    if us == [] then rec else Merge(Apply(rec, us[..|us| - 1]), Render(us[|us| - 1]))
  }

  /** The keyspace after the updates have been written to id (untouched when there are none). */
  function AfterWrites(data: Keyspace, id: string, us: seq<Update>): Keyspace
  {
    if us == [] then data else data[id := Apply(Lookup(data, id), us)]
  }

  /** The HSET calls the updates make against id, oldest first. */
  function Stamp(id: string, us: seq<Update>): seq<Write>
  {
    seq(|us|, i requires 0 <= i < |us| => Write(id, Render(us[i])))
  }

  /** The progress value an update writes, if it writes one. */
  function PctOf(u: Update): seq<nat>
  {
    match u
    case Begin => [StartPct]
    case Checkpoint(p) => [p]
    case Complete(_, _) => [DonePct]
    case Fail(_) => []
  }

  /** The progress values written, in the order they were written. */
  function Pcts(us: seq<Update>): seq<nat>
    decreases |us|
  {
    if us == [] then [] else Pcts(us[..|us| - 1]) + PctOf(us[|us| - 1])
  }

  predicate StrictlyIncreasing(s: seq<nat>)
  {
    forall i, j :: 0 <= i < j < |s| ==> s[i] < s[j]
  }

  predicate NonDecreasing(s: seq<nat>)
  {
    forall i, j :: 0 <= i < j < |s| ==> s[i] <= s[j]
  }

  /** The skeleton every routine follows: Begin, then checkpoints only, then one terminal write
      that agrees with the outcome. */
  predicate WellFormed(run: Run)
  {
    && |run.updates| >= 2
    && run.updates[0] == Begin
    && (forall i :: 0 < i < |run.updates| - 1 ==> run.updates[i].Checkpoint?)
    && match run.outcome
       case Returned(url) => run.updates[|run.updates| - 1].Complete? && run.updates[|run.updates| - 1].url == url
       case Raised(e) => run.updates[|run.updates| - 1] == Fail(e)
  }

  function Checkpoints(ps: seq<nat>): (us: seq<Update>)
  {
    seq(|ps|, i requires 0 <= i < |ps| => Checkpoint(ps[i]))
  }

  /** A routine that wrote the first k checkpoints of its schedule after its start write and
      then raised e. */
  function Stopped(schedule: seq<nat>, k: nat, e: string): Run
    requires k <= |schedule|
  {
    Run([Begin] + Checkpoints(schedule[..k]) + [Fail(e)], Raised(e))
  }

  /** A routine that passed every checkpoint of its schedule and stored its result at url. */
  function Finished(schedule: seq<nat>, url: string, extra: Fields): Run
  {
    Run([Begin] + Checkpoints(schedule) + [Complete(url, extra)], Returned(url))
  }

  /** The fields Begin and the checkpoints leave: still `processing`, at progress pct. */
  function Progressing(pct: nat): Fields
  {
    Empty.(status := Some("processing"), progress := Some(NatToString(pct)))
  }

  /** The fields a failure leaves over a processing record: `failed` with the error, still at
      progress pct. */
  function Failed(pct: nat, e: string): Fields
  {
    Empty.(status := Some("failed"), progress := Some(NatToString(pct)), error := Some(e))
  }

  /** The record a well-formed run leaves behind, stated without replaying its writes. */
  function Settled(rec: Fields, run: Run): (r: Fields)
    requires WellFormed(run)
    ensures r.status == Some(if run.outcome.Returned? then "completed" else "failed")
  {
    match run.outcome
    case Returned(_) => Merge(rec, Render(run.updates[|run.updates| - 1]))
    case Raised(e) =>
      var trail := Pcts(run.updates[..|run.updates| - 1]);
      var last := if trail == [] then StartPct else trail[|trail| - 1];
      Merge(rec, Failed(last, e))
  }

  // ---------------------------------------------------------------------------------------
  // The writer every routine uses for its HSET calls.

  /** The routine's handle on its own record: `redis_client.hset(task_id, ...)` with task_id
      bound, plus the bookkeeping of what the routine has written so far. */
  class TaskReporter {
    const store: RecordStore
    const id: string
    /** The keyspace and the HSET log as they were when the routine started. */
    ghost const before: Keyspace
    ghost const logBefore: seq<Write>
    /** The progress values the routine writes after its start write, in order. */
    ghost const schedule: seq<nat>
    /** How many of them it has written so far. */
    ghost var reached: nat

    /** Nothing written yet. */
    ghost predicate Fresh()
      reads this, store
    {
      reached == 0 && store.data == before && store.log == logBefore
    }

    /** The progress value of the latest write while running. */
    ghost function LastPct(): nat
      reads this
      requires reached <= |schedule|
    {
      ReachedPct(schedule, reached)
    }

    /** Between the start write and the terminal write: the start write and the first `reached`
        checkpoints have been issued, and the record is `processing` at the latest of them. */
    ghost predicate Running()
      reads this, store
    {
      && reached <= |schedule|
      && store.data == before[id := Merge(Lookup(before, id), Progressing(LastPct()))]
      && store.log == logBefore + Stamp(id, [Begin] + Checkpoints(schedule[..reached]))
    }

    /** The routine has issued exactly the writes of run. */
    ghost predicate Ended(run: Run)
      reads this, store
    {
      && store.data == AfterWrites(before, id, run.updates)
      && store.log == logBefore + Stamp(id, run.updates)
    }

    constructor (store: RecordStore, id: string, ghost schedule: seq<nat>)
      ensures this.store == store && this.id == id && this.schedule == schedule
      ensures before == store.data && logBefore == store.log && Fresh()
    {
      this.store := store;
      this.id := id;
      this.schedule := schedule;
      before := store.data;
      logBefore := store.log;
      reached := 0;
    }

    /** hset(task_id, mapping={"status": "processing", "progress": "10"}) */
    method MarkProcessing()
      requires Fresh()
      modifies store
      ensures Running() && reached == 0
    {
      store.HSet(id, Render(Begin));
      assert schedule[..0] == [];
      assert Stamp(id, [Begin]) == [Write(id, Render(Begin))];
    }

    /** hset(task_id, "progress", str(pct)), the next value of the schedule. */
    method SetProgress(pct: nat)
      requires Running() && reached < |schedule| && pct == schedule[reached]
      modifies this`reached, store
      ensures Running() && reached == old(reached) + 1
    {
      store.HSet(id, Render(Checkpoint(pct)));
      CheckpointWrites(before, id, schedule, reached);
      reached := reached + 1;
    }

    /** hset(task_id, mapping={"status": "completed", "progress": "100", "result_url": url, **extra}) */
    method MarkCompleted(url: string, extra: Fields)
      requires Running() && reached == |schedule|
      modifies store
      ensures Ended(Finished(schedule, url, extra))
    {
      assert schedule[..reached] == schedule;
      store.HSet(id, Render(Complete(url, extra)));
      FinishedWrites(before, id, schedule, LastPct(), url, extra);
    }

    /** hset(task_id, mapping={"status": "failed", "error": str(e)}) */
    method MarkFailed(e: string)
      requires Running()
      modifies store
      ensures Ended(Stopped(schedule, reached, e))
    {
      store.HSet(id, Render(Fail(e)));
      StoppedWrites(before, id, schedule, reached, e);
    }
  }

  /** The progress value of the latest write of a run that has passed k checkpoints. */
  function ReachedPct(schedule: seq<nat>, k: nat): nat
    requires k <= |schedule|
  {
    if k == 0 then StartPct else schedule[k - 1]
  }

  lemma StampSnoc(id: string, us: seq<Update>, u: Update)
    ensures Stamp(id, us + [u]) == Stamp(id, us) + [Write(id, Render(u))]
  {
    assert (us + [u])[..|us|] == us;
  }

  /** The next checkpoint write over a running record moves it to the next progress value. */
  lemma CheckpointWrites(data: Keyspace, id: string, schedule: seq<nat>, k: nat)
    requires k < |schedule|
    ensures var rec := Merge(Lookup(data, id), Progressing(ReachedPct(schedule, k)));
      data[id := rec][id := Merge(rec, Render(Checkpoint(schedule[k])))]
        == data[id := Merge(Lookup(data, id), Progressing(ReachedPct(schedule, k + 1)))]
    ensures Stamp(id, [Begin] + Checkpoints(schedule[..k])) + [Write(id, Render(Checkpoint(schedule[k])))]
        == Stamp(id, [Begin] + Checkpoints(schedule[..k + 1]))
  {
    var trail := [Begin] + Checkpoints(schedule[..k]);
    assert schedule[..k + 1] == schedule[..k] + [schedule[k]];
    assert [Begin] + Checkpoints(schedule[..k + 1]) == trail + [Checkpoint(schedule[k])];
    StampSnoc(id, trail, Checkpoint(schedule[k]));
    CheckpointStep(Lookup(data, id), ReachedPct(schedule, k), schedule[k]);
  }

  /** Replaying a stopped run leaves the failure written over the last checkpoint reached. */
  lemma StoppedRecord(rec: Fields, schedule: seq<nat>, k: nat, e: string)
    requires k <= |schedule|
    ensures Apply(rec, Stopped(schedule, k, e).updates)
         == Merge(Merge(rec, Progressing(ReachedPct(schedule, k))), Render(Fail(e)))
  {
    var us := Stopped(schedule, k, e).updates;
    var trail := [Begin] + Checkpoints(schedule[..k]);
    assert us[..|us| - 1] == trail;
    ApplyProgressing(rec, trail);
    CheckpointPcts(schedule[..k]);
    assert Pcts(trail)[|Pcts(trail)| - 1] == ReachedPct(schedule, k);
  }

  /** The terminal failure write over a running record gives the writes of the stopped run. */
  lemma StoppedWrites(data: Keyspace, id: string, schedule: seq<nat>, k: nat, e: string)
    requires k <= |schedule|
    ensures var rec := Merge(Lookup(data, id), Progressing(ReachedPct(schedule, k)));
      data[id := rec][id := Merge(rec, Render(Fail(e)))]
        == AfterWrites(data, id, Stopped(schedule, k, e).updates)
    ensures Stamp(id, [Begin] + Checkpoints(schedule[..k])) + [Write(id, Render(Fail(e)))]
        == Stamp(id, Stopped(schedule, k, e).updates)
  {
    var trail := [Begin] + Checkpoints(schedule[..k]);
    assert Stopped(schedule, k, e).updates == trail + [Fail(e)];
    StampSnoc(id, trail, Fail(e));
    StoppedRecord(Lookup(data, id), schedule, k, e);
  }

  /** The completion write over a running record that passed its whole schedule gives the
      writes of the finished run. */
  lemma FinishedWrites(data: Keyspace, id: string, schedule: seq<nat>, t: nat, url: string, extra: Fields)
    ensures var rec := Merge(Lookup(data, id), Progressing(t));
      data[id := rec][id := Merge(rec, Render(Complete(url, extra)))]
        == AfterWrites(data, id, Finished(schedule, url, extra).updates)
    ensures Stamp(id, [Begin] + Checkpoints(schedule)) + [Write(id, Render(Complete(url, extra)))]
        == Stamp(id, Finished(schedule, url, extra).updates)
  {
    var rec := Lookup(data, id);
    var run := Finished(schedule, url, extra);
    var trail := [Begin] + Checkpoints(schedule);
    assert run.updates == trail + [Complete(url, extra)];
    StampSnoc(id, trail, Complete(url, extra));
    FinishedFollows(schedule, url, extra);
    SettledRecord(rec, run);
    CompleteStep(rec, t, url, extra);
  }

  // ---------------------------------------------------------------------------------------
  // Lemmas about the skeleton.

  lemma PctsSnoc(us: seq<Update>, u: Update)
    ensures Pcts(us + [u]) == Pcts(us) + PctOf(u)
  {
    assert (us + [u])[..|us|] == us;
  }

  lemma {:induction false} CheckpointPcts(ps: seq<nat>)
    ensures Pcts([Begin] + Checkpoints(ps)) == [StartPct] + ps
    decreases |ps|
  {
    if ps == [] {
      assert [Begin] + Checkpoints(ps) == [] + [Begin];
      PctsSnoc([], Begin);
    } else {
      var init := ps[..|ps| - 1];
      var last := ps[|ps| - 1];
      CheckpointPcts(init);
      assert [Begin] + Checkpoints(ps) == ([Begin] + Checkpoints(init)) + [Checkpoint(last)];
      PctsSnoc([Begin] + Checkpoints(init), Checkpoint(last));
      assert ps == init + [last];
    }
  }

  /** The run follows the schedule: it has the skeleton's shape, the progress values it writes
      are a prefix of start, schedule, 100, and it writes all of them exactly when it completes. */
  predicate Follows(run: Run, schedule: seq<nat>)
  {
    && WellFormed(run)
    && Pcts(run.updates) <= [StartPct] + schedule + [DonePct]
    && (run.outcome.Returned? <==> Pcts(run.updates) == [StartPct] + schedule + [DonePct])
  }

  /** A run that stops anywhere along its schedule follows it. */
  lemma StoppedFollows(schedule: seq<nat>, k: nat, e: string)
    requires k <= |schedule|
    ensures Follows(Stopped(schedule, k, e), schedule)
    ensures Pcts(Stopped(schedule, k, e).updates) == [StartPct] + schedule[..k]
  {
    var us := Stopped(schedule, k, e).updates;
    CheckpointPcts(schedule[..k]);
    assert us[..|us| - 1] == [Begin] + Checkpoints(schedule[..k]);
    assert |Pcts(us)| < |[StartPct] + schedule + [DonePct]|;
  }

  /** A run that passes its whole schedule follows it. */
  lemma FinishedFollows(schedule: seq<nat>, url: string, extra: Fields)
    ensures Follows(Finished(schedule, url, extra), schedule)
  {
    var us := Finished(schedule, url, extra).updates;
    CheckpointPcts(schedule);
    assert us[..|us| - 1] == [Begin] + Checkpoints(schedule);
  }

  /** A checkpoint over a processing record moves only its progress. */
  lemma CheckpointStep(rec: Fields, t: nat, p: nat)
    ensures Merge(Merge(rec, Progressing(t)), Render(Checkpoint(p))) == Merge(rec, Progressing(p))
  {
    MergeAssociative(rec, Progressing(t), Render(Checkpoint(p)));
  }

  /** A completion over a processing record hides what the processing writes left. */
  lemma CompleteStep(rec: Fields, t: nat, url: string, extra: Fields)
    ensures Merge(Merge(rec, Progressing(t)), Render(Complete(url, extra))) == Merge(rec, Render(Complete(url, extra)))
  {
    MergeShadowed(rec, Progressing(t), Render(Complete(url, extra)));
  }

  /** A failure over a processing record replaces its status and keeps its progress. */
  lemma FailStep(rec: Fields, t: nat, e: string)
    ensures Merge(Merge(rec, Progressing(t)), Render(Fail(e)))
         == Merge(rec, Failed(t, e))
  {
    MergeAssociative(rec, Progressing(t), Render(Fail(e)));
  }

  /** Begin followed by checkpoints leaves `processing` and the last progress value written. */
  lemma {:induction false} ApplyProgressing(rec: Fields, us: seq<Update>)
    requires |us| >= 1 && us[0] == Begin
    requires forall i :: 0 < i < |us| ==> us[i].Checkpoint?
    ensures |Pcts(us)| >= 1
    ensures Apply(rec, us) == Merge(rec, Progressing(Pcts(us)[|Pcts(us)| - 1]))
    decreases |us|
  {
    var init := us[..|us| - 1];
    if |us| == 1 {
      assert init == [];
    } else {
      ApplyProgressing(rec, init);
      CheckpointStep(rec, Pcts(init)[|Pcts(init)| - 1], us[|us| - 1].pct);
    }
  }

  /** Replaying the writes of any well-formed run gives its settled record: the terminal write
      decides status, a failure keeps the last progress value and every field the run never wrote
      (a stale result_url included), a success sets progress to 100 and result_url. */
  lemma SettledRecord(rec: Fields, run: Run)
    requires WellFormed(run)
    ensures Apply(rec, run.updates) == Settled(rec, run)
  {
    var us := run.updates;
    var init := us[..|us| - 1];
    var last := us[|us| - 1];
    ApplyProgressing(rec, init);
    var t := Pcts(init)[|Pcts(init)| - 1];
    if last.Complete? {
      CompleteStep(rec, t, last.url, last.extra);
    } else {
      FailStep(rec, t, last.error);
    }
  }

  /** No routine looks at the status it finds: whatever the record held before (`cancelled`
      included), a run leaves it `completed` or `failed`. */
  lemma CancelledIsOverwritten(rec: Fields, run: Run)
    requires WellFormed(run)
    ensures Apply(rec, run.updates).status == Some(if run.outcome.Returned? then "completed" else "failed")
  {
    SettledRecord(rec, run);
  }

  /** A failing run writes only status and error at the end: result_url and every other field it
      never wrote keep their old values, and progress keeps the last checkpoint reached. */
  lemma FailureKeepsFields(rec: Fields, run: Run, f: Field)
    requires WellFormed(run) && run.outcome.Raised?
    requires f != StatusField && f != ProgressField && f != ErrorField
    ensures Get(Apply(rec, run.updates), f) == Get(rec, f)
  {
    SettledRecord(rec, run);
  }

  /** Each value above the one before it makes the whole sequence strictly increasing. */
  lemma {:induction false} StepsIncrease(s: seq<nat>)
    requires forall i :: 0 < i < |s| ==> s[i - 1] < s[i]
    ensures StrictlyIncreasing(s)
    decreases |s|
  {
    if |s| > 1 {
      var init := s[..|s| - 1];
      assert forall i :: 0 < i < |init| ==> init[i - 1] < init[i];
      StepsIncrease(init);
      assert forall i :: 0 <= i < |init| ==> s[i] == init[i];
      assert forall i :: 0 <= i < |s| - 1 ==> s[i] < s[|s| - 1] by {
        forall i | 0 <= i < |s| - 1
          ensures s[i] < s[|s| - 1]
        {
          if i < |s| - 2 {
            assert init[i] < init[|init| - 1];
          }
        }
      }
    }
  }

  /** Each value at least the one before it makes the whole sequence non-decreasing. */
  lemma {:induction false} StepsNonDecreasing(s: seq<nat>)
    requires forall i :: 0 < i < |s| ==> s[i - 1] <= s[i]
    ensures NonDecreasing(s)
    decreases |s|
  {
    if |s| > 1 {
      var init := s[..|s| - 1];
      assert forall i :: 0 < i < |init| ==> init[i - 1] <= init[i];
      StepsNonDecreasing(init);
      assert forall i :: 0 <= i < |init| ==> s[i] == init[i];
      assert forall i :: 0 <= i < |s| - 1 ==> s[i] <= s[|s| - 1] by {
        forall i | 0 <= i < |s| - 1
          ensures s[i] <= s[|s| - 1]
        {
          if i < |s| - 2 {
            assert init[i] <= init[|init| - 1];
          }
        }
      }
    }
  }

  /** A run that follows a strictly increasing schedule writes strictly increasing progress. */
  lemma FollowsIncreasing(run: Run, schedule: seq<nat>)
    requires Follows(run, schedule) && StrictlyIncreasing([StartPct] + schedule + [DonePct])
    ensures StrictlyIncreasing(Pcts(run.updates))
  {
    var full := [StartPct] + schedule + [DonePct];
    var s := Pcts(run.updates);
    assert forall i :: 0 <= i < |s| ==> s[i] == full[i];
  }

  /** A run that follows a non-decreasing schedule never moves progress back. */
  lemma FollowsNonDecreasing(run: Run, schedule: seq<nat>)
    requires Follows(run, schedule) && NonDecreasing([StartPct] + schedule + [DonePct])
    ensures NonDecreasing(Pcts(run.updates))
  {
    var full := [StartPct] + schedule + [DonePct];
    var s := Pcts(run.updates);
    assert forall i :: 0 <= i < |s| ==> s[i] == full[i];
  }
}
