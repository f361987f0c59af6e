/** How a job may end from any point it can reach: what is always still possible, and what is lost for good. */
module Endings {
  import opened Basics
  import opened Jobs
  import opened Transitions
  import opened RowInvariant
  import Columns

  /** A run of calls from now on, each made as the code makes it, leads from one state to another. */
  ghost predicate Leads(t: Table, now: Time, t': Table, now': Time, horizon: Time) {
    exists calls :: LeadsBy(t, now, calls, t', now', horizon)
  }

  predicate LeadsBy(t: Table, now: Time, calls: seq<Call>, t': Table, now': Time, horizon: Time) {
    && now <= now' && Lawful(t, calls, horizon) && Run(t, calls, horizon) == t'
    && forall i :: 0 <= i < |calls| ==> now <= calls[i].at <= now'
  }

  lemma LeadsSelf(t: Table, now: Time, later: Time, horizon: Time)
    requires now <= later
    ensures Leads(t, now, t, later, horizon)
  {
    NothingYet(t, horizon);
    assert LeadsBy(t, now, [], t, later, horizon);
  }

  /** One more call; where it is refused nothing happens. */
  lemma LeadsOn(t: Table, now: Time, t1: Table, now1: Time, c: Command, horizon: Time)
    requires Leads(t, now, t1, now1, horizon) && Honest(c, t1) && Inv(t1)
    ensures Leads(t, now, Step(c, t1, now1, horizon), now1, horizon) && Inv(Step(c, t1, now1, horizon))
  {
    hide Step, Honest, Inv, Run, Lawful;
    var calls :| LeadsBy(t, now, calls, t1, now1, horizon);
    LawfulMore(t, calls, Call(c, now1), horizon);
    StepKeepsInvariant(c, t1, now1, horizon);
    assert LeadsBy(t, now, calls + [Call(c, now1)], Step(c, t1, now1, horizon), now1, horizon);
  }

  lemma LeadsLater(t: Table, now: Time, t1: Table, now1: Time, later: Time, horizon: Time)
    requires Leads(t, now, t1, now1, horizon) && now1 <= later
    ensures Leads(t, now, t1, later, horizon)
  {
    hide Run, Lawful;
    var calls :| LeadsBy(t, now, calls, t1, now1, horizon);
    assert LeadsBy(t, now, calls, t1, later, horizon);
  }

  lemma LeadsFrom(t: Table, now: Time, t': Table, now': Time, horizon: Time)
    requires Inv(t) && Leads(t, now, t', now', horizon)
    ensures Inv(t') && Evolves(t.job, t'.job)
  {
    hide Inv, Evolves, Lawful, Run;
    var calls :| LeadsBy(t, now, calls, t', now', horizon);
    RunKeepsInvariant(t, calls, horizon);
  }

  /** An instant at which nobody holds the lease any more. */
  function FreeAt(j: Job, now: Time): (at: Time)
    ensures now <= at && LeaseFree(j, at)
  {
    if j.lease.Some? && now < j.lease.value.until then j.lease.value.until else now
  }

  const WORKER: Token := 0

  /** A worker takes the lease. */
  lemma Taken(t: Table, now: Time, t1: Table, at: Time, action: NextAction, horizon: Time) returns (t2: Table)
    requires Leads(t, now, t1, at, horizon) && Inv(t1) && t1.job.nextAction == Some(action) && LeaseFree(t1.job, at)
    ensures Leads(t, now, t2, at, horizon) && Inv(t2)
    ensures t2 == Table(t1.job.(lease := Some(Lease(WORKER, at + SECOND)), updatedAt := at), t1.attempts)
  {
    hide Leads;
    var c := LeaseCall(Acquire(WORKER, action, SECOND));
    LeadsOn(t, now, t1, at, c, horizon);
    t2 := Step(c, t1, at, horizon);
  }

  lemma GivenBack(t: Table, now: Time, t1: Table, at: Time, horizon: Time) returns (t2: Table)
    requires Leads(t, now, t1, at, horizon) && Inv(t1) && LeaseValid(t1.job, WORKER, at)
    ensures Leads(t, now, t2, at, horizon) && Inv(t2)
    ensures t2 == Table(t1.job.(lease := None, updatedAt := at), t1.attempts)
  {
    hide Leads;
    LeadsOn(t, now, t1, at, LeaseCall(Release(WORKER)), horizon);
    t2 := Step(LeaseCall(Release(WORKER)), t1, at, horizon);
  }

  // ----- the parts of a job's way -----

  lemma ClaimedAndMarked(t: Table, at: Time, final: Status, horizon: Time)
    requires LeaseValid(t.job, WORKER, at) && PublishPending(t.job) && final == StatusOf(t.job.payload.value)
    requires t.job.messageAttempts <= RESULT_MESSAGE_LIMIT
    ensures var t1 := Step(ResultCall(WORKER, ClaimMessage), t, at, horizon);
            Step(ResultCall(WORKER, MarkPublished(final)), t1, at, horizon).job.status == final
  {}

  /** A stored result that has not been given up gets published. */
  lemma Published(t: Table, now: Time, t1: Table, at: Time, horizon: Time) returns (t2: Table)
    requires Leads(t, now, t1, at, horizon) && Inv(t1) && LeaseFree(t1.job, at)
    requires t1.job.payload.Some? && t1.job.messageStatus == Pending
    ensures Leads(t, now, t2, at, horizon) && t2.job.status == StatusOf(t1.job.payload.value)
  {
    hide Leads;
    var t3 := Taken(t, now, t1, at, PublishResult, horizon);
    var final := StatusOf(t1.job.payload.value);
    var claim, mark := ResultCall(WORKER, ClaimMessage), ResultCall(WORKER, MarkPublished(final));
    ClaimedAndMarked(t3, at, final, horizon);
    hide Inv, Step;
    LeadsOn(t, now, t3, at, claim, horizon);
    LeadsOn(t, now, Step(claim, t3, at, horizon), at, mark, horizon);
    t2 := Step(mark, Step(claim, t3, at, horizon), at, horizon);
  }

  /** A job that was never submitted gets submitted. */
  lemma Submitted(t: Table, now: Time, t1: Table, at: Time, horizon: Time) returns (t2: Table)
    requires Leads(t, now, t1, at, horizon) && Inv(t1) && LeaseFree(t1.job, at)
    requires t1.job.nextAction == Some(SubmitPruna) && t1.job.submitStartedAt.None?
    ensures Leads(t, now, t2, at, horizon) && Inv(t2) && LeaseFree(t2.job, at)
    ensures t2.job.nextAction == Some(SubmitPruna) && t2.job.submitStartedAt.Some?
  {
    hide Leads, ValidKey;
    PlainKey();
    var t3 := Taken(t, now, t1, at, SubmitPruna, horizon);
    var prepare := SubmitCall(WORKER, Prepare(1, "k", true));
    LeadsOn(t, now, t3, at, prepare, horizon);
    var t4 := Step(prepare, t3, at, horizon);
    assert t4.job.taskUuid.Some? && t4.attempts == t3.attempts == [];
    var begin := AttemptCall(BeginSubmission(WORKER, t4.job.taskUuid.value, true));
    LeadsOn(t, now, t4, at, begin, horizon);
    var t5 := Step(begin, t4, at, horizon);
    t2 := GivenBack(t, now, t5, at, horizon);
  }

  /** A result for a submitted job that nobody has decided about: the provider reports success, or final failure. */
  lemma Reported(t: Table, now: Time, t1: Table, at: Time, e: EventCommand, horizon: Time) returns (t2: Table)
    requires Leads(t, now, t1, at, horizon) && Inv(t1) && LeaseFree(t1.job, at)
    requires Undecided(t1.job) && t1.job.submitStartedAt.Some?
    requires e == Succeeded(Some("u"), None) || e == FailedFinal(FailedResult(t1.job.id, "c", "m"))
    ensures Leads(t, now, t2, at, horizon) && Inv(t2) && LeaseFree(t2.job, at)
    ensures if e.Succeeded? then At(t2.job, Postprocessing, Postprocess) && t2.job.verified.None?
            else t2.job.payload == Some(e.payload) && t2.job.messageStatus == Pending
  {
    hide Leads, ValidKey, Evolves;
    assert "c"[0] in "c" && "m"[0] in "m";
    LeadsOn(t, now, t1, at, EventCall(t1.job.taskUuid.value, e), horizon);
    t2 := Step(EventCall(t1.job.taskUuid.value, e), t1, at, horizon);
  }

  lemma WithoutResult(t: Table)
    requires Inv(t) && t.job.payload.None?
    ensures !Terminal(t.job) && t.job.messageStatus == Pending
  {}

  lemma SaveLeaves(t: Table, p: Payload, at: Time, horizon: Time)
    requires LeaseValid(t.job, WORKER, at) && t.job.payload.None? && !Terminal(t.job)
    requires WellFormed(p) && p.jobId == t.job.id
    ensures var j' := Step(ResultCall(WORKER, Save(p, ImageKeyOf(p))), t, at, horizon).job;
            j'.payload == Some(p) && j'.messageStatus == t.job.messageStatus && j'.lease == t.job.lease
  {}

  /** A worker stores a result: a failure at any stage, or a success once an image is on record. */
  lemma Saved(t: Table, now: Time, t1: Table, at: Time, p: Payload, horizon: Time) returns (t2: Table)
    requires Leads(t, now, t1, at, horizon) && Inv(t1) && LeaseValid(t1.job, WORKER, at) && t1.job.payload.None?
    requires WellFormed(p) && p.jobId == t1.job.id && (p.CompletedResult? ==> Recorded(t1.job, p.imageKey))
    ensures Leads(t, now, t2, at, horizon) && Inv(t2) && LeaseFree(t2.job, at)
    ensures t2.job.payload == Some(p) && t2.job.messageStatus == Pending
  {
    hide Leads, Inv, Step, WellFormed;
    WithoutResult(t1);
    SaveLeaves(t1, p, at, horizon);
    var save := ResultCall(WORKER, Save(p, ImageKeyOf(p)));
    LeadsOn(t, now, t1, at, save, horizon);
    t2 := GivenBack(t, now, Step(save, t1, at, horizon), at, horizon);
  }

  // ----- coming to an end at all -----

  /** Some run from now on brings the job to its end. */
  ghost predicate CanEnd(t: Table, now: Time, horizon: Time) {
    exists t': Table, later: Time :: Leads(t, now, t', later, horizon) && Terminal(t'.job)
  }

  /** Every job can still be brought to its end, unless its result has been given up. */
  lemma EndsExactly(t: Table, now: Time, horizon: Time)
    requires Inv(t)
    ensures CanEnd(t, now, horizon) <==> t.job.messageStatus != RetryExhausted
  {
    if CanEnd(t, now, horizon) {
      var t': Table, later: Time :| Leads(t, now, t', later, horizon) && Terminal(t'.job);
      LeadsFrom(t, now, t', later, horizon);
    }
    if t.job.messageStatus != RetryExhausted {
      var at := FreeAt(t.job, now);
      LeadsSelf(t, now, at, horizon);
      hide Leads, Evolves;
      if Terminal(t.job) {
      } else {
        var t1 := Decided(t, now, at, horizon);
        var t2 := Published(t, now, t1, at, horizon);
        assert Terminal(t2.job);
      }
    }
  }

  lemma Decided(t: Table, now: Time, at: Time, horizon: Time) returns (t1: Table)
    requires Inv(t) && Leads(t, now, t, at, horizon) && LeaseFree(t.job, at)
    requires !Terminal(t.job) && t.job.messageStatus == Pending
    ensures Leads(t, now, t1, at, horizon) && Inv(t1) && LeaseFree(t1.job, at)
    ensures t1.job.payload.Some? && t1.job.messageStatus == Pending
  {
    hide Leads;
    t1 := t;
    if t.job.payload.Some? { return; }
    assert "c"[0] in "c" && "m"[0] in "m";
    if t.job.nextAction == Some(Postprocess) || t.job.nextAction == Some(RunFallback) {
      t1 := Taken(t, now, t, at, t.job.nextAction.value, horizon);
      t1 := Saved(t, now, t1, at, FailedResult(t.job.id, "c", "m"), horizon);
    } else {
      if t.job.submitStartedAt.None? { t1 := Submitted(t, now, t, at, horizon); }
      t1 := Reported(t, now, t1, at, FailedFinal(FailedResult(t1.job.id, "c", "m")), horizon);
    }
  }

  // ----- coming to a good end -----

  ghost predicate CanSucceed(t: Table, now: Time, horizon: Time) {
    exists t': Table, later: Time :: Leads(t, now, t', later, horizon) && t'.job.status == Completed
  }

  /** The one generation of the fallback was claimed without a start on record, so no image can come of it. */
  predicate SpentInVain(j: Job) { j.fallbackAttempts > 0 && j.fallbackStartedAt.None? }

  /** What rules success out. */
  predicate Lost(j: Job) {
    || j.messageStatus == RetryExhausted
    || (j.payload.Some? && j.payload.value.FailedResult?)
    || SpentInVain(j)
  }

  /** Spent is spent: a start is only ever recorded together with the claim. */
  lemma {:induction false} SpentStays(t: Table, calls: seq<Call>, horizon: Time)
    requires Inv(t) && Lawful(t, calls, horizon) && SpentInVain(t.job)
    ensures SpentInVain(Run(t, calls, horizon).job)
    decreases |calls|
  {
    hide Inv, Step, Honest, Evolves;
    if calls != [] {
      var n := |calls| - 1;
      LawfulPrefix(t, calls, horizon);
      SpentStays(t, calls[..n], horizon);
      RunKeepsInvariant(t, calls[..n], horizon);
      SpentStep(calls[n].command, Run(t, calls[..n], horizon), calls[n].at, horizon);
    }
  }

  lemma StartNeedsClaim(c: Command, t: Table, now: Time, horizon: Time)
    requires c.StageCall? && c.stage.BeginFallback? && Applies(c, t, now, horizon)
    ensures t.job.fallbackAttempts == 0
  {}

  lemma SpentStep(c: Command, t: Table, now: Time, horizon: Time)
    requires Inv(t) && Honest(c, t) && SpentInVain(t.job)
    ensures SpentInVain(Step(c, t, now, horizon).job)
  {
    hide Inv, Step, Honest, Applies;
    var t' := Step(c, t, now, horizon);
    StepKeepsInvariant(c, t, now, horizon);
    if t'.job.fallbackStartedAt.Some? {
      Columns.StepMakes(c, t, now, horizon, Columns.FallbackStart(t'.job.fallbackStartedAt.value));
      StartNeedsClaim(c, t, now, horizon);
    }
  }

  /** A job can still end well exactly if nothing rules that out. */
  lemma SucceedsExactly(t: Table, now: Time, horizon: Time)
    requires Inv(t)
    ensures CanSucceed(t, now, horizon) <==> !Lost(t.job)
  {
    if CanSucceed(t, now, horizon) {
      var t': Table, later: Time :| Leads(t, now, t', later, horizon) && t'.job.status == Completed;
      LeadsFrom(t, now, t', later, horizon);
      var calls :| LeadsBy(t, now, calls, t', later, horizon);
      if SpentInVain(t.job) { SpentStays(t, calls, horizon); }
    }
    if !Lost(t.job) {
      var at := FreeAt(t.job, now);
      LeadsSelf(t, now, at, horizon);
      hide Leads, Evolves;
      if !Terminal(t.job) {
        var t1 := Made(t, now, at, horizon);
        var t2 := Published(t, now, t1, at, horizon);
        assert t2.job.status == Completed;
      }
    }
  }

  /** A job without a result gets a good one. */
  lemma Made(t: Table, now: Time, at: Time, horizon: Time) returns (t1: Table)
    requires Inv(t) && Leads(t, now, t, at, horizon) && LeaseFree(t.job, at)
    requires !Terminal(t.job) && !Lost(t.job)
    ensures Leads(t, now, t1, at, horizon) && Inv(t1) && LeaseFree(t1.job, at)
    ensures t1.job.payload.Some? && t1.job.payload.value.CompletedResult? && t1.job.messageStatus == Pending
  {
    hide Leads, ValidKey;
    t1 := t;
    if t.job.payload.Some? { return; }
    if t.job.nextAction == Some(RunFallback) {
      t1 := Taken(t, now, t, at, RunFallback, horizon);
      if t1.job.fallbackKey.None? { t1 := FallbackImage(t, now, t1, at, horizon); }
    } else {
      if t.job.nextAction != Some(Postprocess) {
        if t.job.submitStartedAt.None? { t1 := Submitted(t, now, t, at, horizon); }
        t1 := Reported(t, now, t1, at, Succeeded(Some("u"), None), horizon);
      }
      t1 := Taken(t, now, t1, at, Postprocess, horizon);
      if t1.job.verified.None? { t1 := ImageVerified(t, now, t1, at, horizon); }
    }
    t1 := Told(t, now, t1, at, horizon);
  }

  /** The success for the image on record. */
  lemma Told(t: Table, now: Time, t1: Table, at: Time, horizon: Time) returns (t2: Table)
    requires Leads(t, now, t1, at, horizon) && Inv(t1) && LeaseValid(t1.job, WORKER, at) && t1.job.payload.None?
    requires t1.job.verified.Some? || t1.job.fallbackKey.Some?
    ensures Leads(t, now, t2, at, horizon) && Inv(t2) && LeaseFree(t2.job, at)
    ensures t2.job.payload.Some? && t2.job.payload.value.CompletedResult? && t2.job.messageStatus == Pending
  {
    hide Leads, ValidKey;
    assert "t"[0] in "t" && "c"[0] in "c";
    var key := if t1.job.verified.Some? then t1.job.verified.value.key else t1.job.fallbackKey.value;
    t2 := Saved(t, now, t1, at, CompletedResult(t1.job.id, key, "t", "c"), horizon);
  }

  lemma ImageVerified(t: Table, now: Time, t1: Table, at: Time, horizon: Time) returns (t2: Table)
    requires Leads(t, now, t1, at, horizon) && Inv(t1) && LeaseValid(t1.job, WORKER, at)
    requires t1.job.nextAction == Some(Postprocess) && t1.job.verified.None?
    ensures Leads(t, now, t2, at, horizon) && Inv(t2) && LeaseValid(t2.job, WORKER, at)
    ensures t2.job.verified.Some? && t2.job.payload.None?
  {
    hide Leads, ValidKey;
    PlainKey();
    LeadsOn(t, now, t1, at, StageCall(WORKER, RecordVerified("k")), horizon);
    t2 := Step(StageCall(WORKER, RecordVerified("k")), t1, at, horizon);
  }

  /** The fallback as far as its image: task, slot, record. */
  lemma FallbackImage(t: Table, now: Time, t1: Table, at: Time, horizon: Time) returns (t2: Table)
    requires Leads(t, now, t1, at, horizon) && Inv(t1) && LeaseValid(t1.job, WORKER, at)
    requires t1.job.nextAction == Some(RunFallback) && t1.job.fallbackKey.None? && !SpentInVain(t1.job)
    ensures Leads(t, now, t2, at, horizon) && Inv(t2) && LeaseValid(t2.job, WORKER, at)
    ensures t2.job.fallbackKey.Some? && t2.job.payload.None?
  {
    hide Leads, ValidKey;
    PlainKey();
    var t3 := FallbackStarted(t, now, t1, at, horizon);
    LeadsOn(t, now, t3, at, StageCall(WORKER, RecordFallbackImage("k")), horizon);
    t2 := Step(StageCall(WORKER, RecordFallbackImage("k")), t3, at, horizon);
  }

  lemma FallbackStarted(t: Table, now: Time, t1: Table, at: Time, horizon: Time) returns (t2: Table)
    requires Leads(t, now, t1, at, horizon) && Inv(t1) && LeaseValid(t1.job, WORKER, at)
    requires t1.job.nextAction == Some(RunFallback) && t1.job.fallbackKey.None? && !SpentInVain(t1.job)
    ensures Leads(t, now, t2, at, horizon) && Inv(t2) && LeaseValid(t2.job, WORKER, at)
    ensures t2.job.nextAction == Some(RunFallback) && t2.job.fallbackKey.None? && t2.job.fallbackStartedAt.Some?
  {
    hide Leads, ValidKey;
    t2 := t1;
    if t1.job.fallbackStartedAt.Some? { return; }
    InFallback(t1);
    hide Inv, Step;
    var task := if t1.job.taskUuid == Some(1) then 2 else 1;
    var prepare := StageCall(WORKER, PrepareFallback(task));
    LeadsOn(t, now, t1, at, prepare, horizon);
    var t3 := Step(prepare, t1, at, horizon);
    PrepareLeaves(t1, task, at, horizon);
    InFallback(t3);
    var begin := StageCall(WORKER, BeginFallback(t3.job.fallbackTask.value, true));
    LeadsOn(t, now, t3, at, begin, horizon);
    t2 := Step(begin, t3, at, horizon);
    BeginLeaves(t3, t3.job.fallbackTask.value, at, horizon);
  }

  lemma InFallback(t: Table)
    requires Inv(t) && t.job.nextAction == Some(RunFallback)
    ensures t.job.status == FallbackRunning && t.job.payload.None?
  {}

  lemma PrepareLeaves(t: Table, task: TaskId, at: Time, horizon: Time)
    requires At(t.job, FallbackRunning, RunFallback) && t.job.payload.None? && LeaseValid(t.job, WORKER, at)
    requires t.job.taskUuid != Some(task)
    ensures var j' := Step(StageCall(WORKER, PrepareFallback(task)), t, at, horizon).job;
            && j'.fallbackTask.Some? && j' == t.job.(fallbackTask := j'.fallbackTask, updatedAt := j'.updatedAt)
  {}

  lemma BeginLeaves(t: Table, task: TaskId, at: Time, horizon: Time)
    requires At(t.job, FallbackRunning, RunFallback) && t.job.payload.None? && LeaseValid(t.job, WORKER, at)
    requires t.job.fallbackTask == Some(task) && t.job.fallbackStartedAt.None? && t.job.fallbackAttempts == 0
    ensures var j' := Step(StageCall(WORKER, BeginFallback(task, true)), t, at, horizon).job;
            && j'.fallbackStartedAt.Some?
            && j' == t.job.(fallbackStartedAt := j'.fallbackStartedAt, fallbackAttempts := 1, updatedAt := j'.updatedAt)
  {}
}
