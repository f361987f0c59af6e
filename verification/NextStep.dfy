/** The next thing to do for a job, read off its row, and when its request message may be deleted. */
module NextStep {
  import opened Basics
  import opened Jobs
  import opened Transitions
  import opened RowInvariant

  datatype Next =
    | AwaitWebhook | DoPostprocess | DoFallback | DoPublish | RecoverUnknown | ResubmitPruna | RecoverResultRef
    | OperatorReview

  predicate AuthHoldActive(j: Job) {
    && j.authHold.Some? && j.taskUuid == Some(j.authHold.value.task) && Undecided(j)
    && (j.nextAction.None? || j.nextAction == Some(SubmitPruna))
  }

  predicate AwaitingResultUrl(j: Job) {
    && j.aiStores && j.verified.None? && j.imageUrl.None? && At(j, Postprocessing, Postprocess) && j.payload.None?
  }

  predicate NotAcceptedPending(j: Job) {
    At(j, Received, SubmitPruna) && j.payload.None? && j.notAcceptedAt.Some?
  }

  function NextStepFor(j: Job): Option<Next> {
    if Terminal(j) then None
    else if AuthHoldActive(j) then Some(OperatorReview)
    else if j.nextAction == Some(PublishResult) && j.payload.Some? then Some(DoPublish)
    else if j.nextAction == Some(RunFallback) then Some(DoFallback)
    else if j.nextAction == Some(Postprocess) then
      Some(if AwaitingResultUrl(j) then RecoverResultRef else DoPostprocess)
    else if j.status == WaitingPruna && j.nextAction.None? && j.acceptedAt.Some? then Some(AwaitWebhook)
    else if NotAcceptedPending(j) then Some(if j.retryAt.Some? then ResubmitPruna else OperatorReview)
    else if At(j, Received, SubmitPruna) && j.taskUuid.Some? && j.submitStartedAt.Some? && j.acceptedAt.None? then
      Some(RecoverUnknown)
    else None
  }

  /** Not yet submitted: the only unfinished state with nothing recorded to continue from. */
  predicate Unstarted(j: Job) { At(j, Received, SubmitPruna) && j.submitStartedAt.None? }

  /** Deleting the message of such a job loses nothing. */
  predicate Covered(j: Job) { Settled(j) || NextStepFor(j).Some? }

  /** On reachable rows the next step is missing exactly when the job is finished or was never submitted. */
  lemma NextStepMissingExactly(t: Table)
    requires Inv(t)
    ensures NextStepFor(t.job).None? <==> Terminal(t.job) || Unstarted(t.job)
    ensures Covered(t.job) <==> !Unstarted(t.job)
  {
    var j := t.job;
    if NotAcceptedPending(j) { assert t.attempts != []; }
  }

  /** The one step that takes a job's next step away is undoing its first, unsent submission. */
  lemma OnlyUndoUncovers(c: Command, t: Table, now: Time, horizon: Time)
    requires Inv(t) && Honest(c, t) && Covered(t.job)
    ensures var t' := Step(c, t, now, horizon);
            !Covered(t'.job) <==>
              && c.AttemptCall? && c.attempt.CancelUnsent? && Applies(c, t, now, horizon)
              && At(t.job, Received, SubmitPruna) && |t.attempts| <= 1
  {
    StepKeepsInvariant(c, t, now, horizon);
    NextStepMissingExactly(t);
    var t' := Step(c, t, now, horizon);
    NextStepMissingExactly(t');
    if c.AttemptCall? && c.attempt.CancelUnsent? {
      UndoUncovers(t, c.attempt.token, c.attempt.task, now);
    } else {
      StartStays(c, t, now, horizon);
    }
  }

  lemma UndoUncovers(t: Table, token: Token, task: TaskId, now: Time)
    requires Inv(t) && !Unstarted(t.job)
    ensures var t' := AttemptStep(CancelUnsent(token, task), t, now, 0);
            Unstarted(t'.job) <==>
              CancelAllowed(t, token, task, now) && At(t.job, Received, SubmitPruna) && |t.attempts| <= 1
  {
    var n := |t.attempts| - 1;
    if n >= 0 && CancelAllowed(t, token, task, now) {
      FindAt(t.attempts, n);
      NumberedAt(t.attempts, n);
    }
  }

  /** No other step clears the start record of a job that is still to be submitted. */
  lemma StartStays(c: Command, t: Table, now: Time, horizon: Time)
    requires Inv(t) && !Unstarted(t.job)
    requires !(c.AttemptCall? && c.attempt.CancelUnsent?)
    ensures !Unstarted(Step(c, t, now, horizon).job)
  {
    hide RowStep, AttemptStep, Inv;
    if c.AttemptCall? {
      AttemptKeepsStart(c.attempt, t, now, horizon);
    } else {
      RowStepKeepsSubmission(c, t.job, now);
      if !At(t.job, Received, SubmitPruna) { RowStepLeavesSubmit(c, t.job, now); }
    }
  }

  lemma AttemptKeepsStart(c: AttemptCommand, t: Table, now: Time, horizon: Time)
    requires !c.CancelUnsent?
    ensures var j' := AttemptStep(c, t, now, horizon).job;
            && (t.job.submitStartedAt.Some? ==> j'.submitStartedAt.Some?)
            && (!At(t.job, Received, SubmitPruna) ==> !At(j', Received, SubmitPruna))
  {
    hide NotAcceptedStep, BeginSubmissionAllowed, BeginRetryAllowed;
    if c.NotAcceptedReport? {
      ReportKeepsStart(t, c.task, c.code, c.source, c.retryAfter, c.unrepresentable, now, horizon);
    }
  }

  lemma ReportKeepsStart(t: Table, task: TaskId, code: string, source: Source, retryAfter: Option<nat>,
                         unrepresentable: bool, now: Time, horizon: Time)
    ensures var j' := NotAcceptedStep(t, task, code, source, retryAfter, unrepresentable, now, horizon).0.job;
            && j'.submitStartedAt == t.job.submitStartedAt
            && (!At(t.job, Received, SubmitPruna) ==> !At(j', Received, SubmitPruna))
  {
    hide Judged, KnownAttempts;
    if t.job.taskUuid == Some(task) && t.job.submitStartedAt.Some? {
      var attempts := KnownAttempts(t, task);
      var i := Find(attempts, task);
      if i < |attempts| {
        JudgedKeepsStart(t.job, attempts, i, code, source, retryAfter, unrepresentable, now, horizon);
      }
    }
  }

  lemma JudgedKeepsStart(j: Job, attempts: seq<Attempt>, i: nat, code: string, source: Source, retryAfter: Option<nat>,
                         unrepresentable: bool, now: Time, horizon: Time)
    requires i < |attempts|
    ensures var j' := Judged(j, attempts, i, code, source, retryAfter, unrepresentable, now, horizon).0.job;
            && j'.submitStartedAt == j.submitStartedAt
            && (!At(j, Received, SubmitPruna) ==> !At(j', Received, SubmitPruna))
  {
    hide Verdict, RetryTime, RejectedPayload, MarkConflict;
  }

  lemma RowStepLeavesSubmit(c: Command, j: Job, now: Time)
    requires !c.AttemptCall? && !At(j, Received, SubmitPruna)
    ensures !At(RowStep(c, j, now), Received, SubmitPruna)
  {}

  // ----- who may continue -----

  /** The parts of the deployment that are up when a deletion is decided. */
  datatype Paths = Paths(
    publisherAlive: bool, resultQueue: bool,
    watchdogAlive: bool, resubmits: bool, internalQueue: bool, postprocessRunning: bool)

  predicate PublisherReady(p: Paths, j: Job, step: Next) {
    && step.DoPublish? && p.publisherAlive && j.nextAction == Some(PublishResult) && j.payload.Some?
    && j.messageStatus == Pending && p.resultQueue
  }

  predicate WatchdogReady(p: Paths, j: Job, step: Next) {
    && (step.AwaitWebhook? || step.RecoverUnknown? || step.RecoverResultRef? || step.ResubmitPruna?)
    && p.watchdogAlive && j.taskUuid.Some?
    && if step.ResubmitPruna? then p.resubmits && j.retryAt.Some? else p.internalQueue
  }

  predicate PostprocessReady(p: Paths, j: Job, step: Next) {
    && step.DoPostprocess? && j.nextAction == Some(Postprocess) && j.payload.None? && j.taskUuid.Some?
    && p.postprocessRunning && p.watchdogAlive && p.internalQueue
  }

  predicate ReadyFor(p: Paths, j: Job, step: Next) {
    PublisherReady(p, j, step) || WatchdogReady(p, j, step) || PostprocessReady(p, j, step)
  }

  predicate DeletionAllowed(j: Job, p: Paths) {
    if Settled(j) then true
    else match NextStepFor(j)
         case None => false
         case Some(step) => ReadyFor(p, j, step)
  }

  /** The key was refused for the current task, and nothing has been decided since. */
  predicate KeyRefused(j: Job) {
    && j.authHold.Some? && j.taskUuid == Some(j.authHold.value.task) && j.payload.None?
    && (j.status == Received || j.status == WaitingPruna)
  }

  /** What comes next, told from the columns of a reachable row. */
  lemma NextStepExactly(t: Table)
    requires Inv(t)
    ensures var j, next := t.job, NextStepFor(t.job);
            var submitting := j.nextAction == Some(SubmitPruna) && j.submitStartedAt.Some? && !KeyRefused(j);
            var urlMissing := j.aiStores && j.verified.None? && j.imageUrl.None?;
            && (next == Some(DoPublish) <==> j.nextAction == Some(PublishResult))
            && (next == Some(DoFallback) <==> j.nextAction == Some(RunFallback))
            && (next == Some(RecoverResultRef) <==> j.nextAction == Some(Postprocess) && urlMissing)
            && (next == Some(DoPostprocess) <==> j.nextAction == Some(Postprocess) && !urlMissing)
            && (next == Some(AwaitWebhook) <==> j.status == WaitingPruna && j.payload.None? && !KeyRefused(j))
            && (next == Some(RecoverUnknown) <==> submitting && j.notAcceptedAt.None?)
            && (next == Some(ResubmitPruna) <==> submitting && j.notAcceptedAt.Some? && j.retryAt.Some?)
            && (next == Some(OperatorReview) <==>
                  KeyRefused(j) || (submitting && j.notAcceptedAt.Some? && j.retryAt.None?))
  {
    hide ResultFits, OneImageSource, Keyed, Bounded;
  }

  /** A message may be deleted exactly in these cases, whatever parts of the deployment are up. */
  lemma DeletionExactly(t: Table, p: Paths)
    requires Inv(t)
    ensures var j := t.job;
            var submitting := j.nextAction == Some(SubmitPruna) && j.submitStartedAt.Some? && !KeyRefused(j);
            var urlMissing := j.aiStores && j.verified.None? && j.imageUrl.None?;
            DeletionAllowed(j, p) <==>
              || j.status == Completed || j.status == Failed
              // a stored result the publisher still has to send
              || (j.nextAction == Some(PublishResult) && j.messageStatus == Pending
                  && p.publisherAlive && p.resultQueue)
              // a request that was sent: the watchdog asks for it, and passes on what it learns
              || (p.watchdogAlive && p.internalQueue &&
                    (|| (j.status == WaitingPruna && j.payload.None? && !KeyRefused(j))
                     || (submitting && j.notAcceptedAt.None?)
                     || (j.nextAction == Some(Postprocess) && urlMissing)))
              // a request that was not accepted and is scheduled: the watchdog sends it again
              || (p.watchdogAlive && p.resubmits && submitting && j.notAcceptedAt.Some? && j.retryAt.Some?)
              // an image to be seen to: a worker does it, and the watchdog reminds it
              || (p.postprocessRunning && p.watchdogAlive && p.internalQueue
                  && j.nextAction == Some(Postprocess) && !urlMissing)
  {
    hide ResultFits, OneImageSource, Keyed, Bounded;
  }

  /** What a part that is down leaves: without the watchdog only results go, without the publisher none of those. */
  lemma WithoutAPart(t: Table, p: Paths)
    requires Inv(t) && DeletionAllowed(t.job, p) && t.job.status != Completed && t.job.status != Failed
    ensures !p.watchdogAlive ==> t.job.nextAction == Some(PublishResult) && p.publisherAlive && p.resultQueue
    ensures !p.publisherAlive || !p.resultQueue ==> t.job.payload.None? && p.watchdogAlive
    ensures !p.internalQueue ==>
      t.job.nextAction == Some(PublishResult) || (t.job.nextAction == Some(SubmitPruna) && t.job.retryAt.Some?)
    ensures !p.resubmits ==> !(t.job.nextAction == Some(SubmitPruna) && t.job.notAcceptedAt.Some?)
    ensures !p.postprocessRunning && t.job.nextAction == Some(Postprocess) ==>
      t.job.aiStores && t.job.verified.None? && t.job.imageUrl.None?
  {
    hide ResultFits, OneImageSource, Keyed, Bounded;
    DeletionExactly(t, p);
    hide DeletionAllowed;
  }

  /** With every part up, the rows whose message must still be kept are exactly these five kinds. */
  lemma KeptMessages(t: Table)
    requires Inv(t)
    ensures var j := t.job;
            !DeletionAllowed(j, Paths(true, true, true, true, true, true)) <==>
              || Unstarted(j)
              || AuthHoldActive(j)
              || (NotAcceptedPending(j) && j.retryAt.None?)
              || j.nextAction == Some(RunFallback)
              || j.messageStatus == RetryExhausted
  {
    NextStepMissingExactly(t);
  }

  /** More parts up never turns a deletion down. */
  lemma DeletionMonotone(j: Job, p: Paths, q: Paths)
    requires p.publisherAlive ==> q.publisherAlive
    requires p.resultQueue ==> q.resultQueue
    requires p.watchdogAlive ==> q.watchdogAlive
    requires p.resubmits ==> q.resubmits
    requires p.internalQueue ==> q.internalQueue
    requires p.postprocessRunning ==> q.postprocessRunning
    ensures DeletionAllowed(j, p) ==> DeletionAllowed(j, q) && Covered(j)
  {}
}
