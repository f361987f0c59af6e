/**
 The watchdog: the SQL query that selects rows to inspect and the code that decides what to do with one were written
 apart from each other and from NextStepFor. Here the three are shown to agree on every reachable row.
 */
module Watchdog {
  import opened Basics
  import opened Jobs
  import opened Transitions
  import opened RowInvariant
  import opened NextStep

  /** Durations, in microseconds. */
  datatype Settings = Settings(query: nat, alert: nat, stale: nat, window: nat)

  /** The watchdog's own row about a job, written at its first check. */
  datatype Check = Check(nextAt: Time, publishedAt: Option<Time>, settled: bool)

  /** A slot of the provider still taken for a job, and the task it was taken for. */
  datatype Slot = Slot(since: Time, task: TaskId)

  /** What the query and the inspection read besides the job's row. */
  datatype Side = Side(check: Option<Check>, slot: Option<Slot>, costRecorded: bool)

  datatype Branch =
    | CleanupCost(ask: bool)
    | AlertAuthHold
    | ResubmitHeld
    | ResubmitWaiting
    | Resubmit
    | CheckUnknown(query: bool)
    | CheckWaiting(query: bool)
    | RecoverReference
    | ContinuePostprocess
    | ContinueFallback
    | CheckPublish
    | FallThrough

  // ----- the candidate query -----

  /** column <= statement_timestamp() - wait; a NULL column is never that old. */
  predicate Elapsed(column: Option<Time>, wait: nat, now: Time) { column.Some? && column.value <= now - wait }

  /** Start of the post-processing stage: COALESCE(image_verified_at, runware_accepted_at). */
  function StageStart(j: Job): Option<Time> {
    Coalesce(if j.verified.Some? then Some(j.verified.value.at) else None, j.acceptedAt)
  }

  /** c.next_check_at IS NULL OR c.next_check_at <= now. */
  predicate CheckDue(check: Option<Check>, now: Time) { check.None? || check.value.nextAt <= now }

  predicate SlotStale(side: Side, now: Time, s: Settings) {
    side.slot.Some? && Elapsed(Some(side.slot.value.since), s.stale, now)
  }

  /** An unfinished job, disjunct by disjunct. */
  predicate WorkDue(j: Job, now: Time, s: Settings) {
    !Terminal(j) && (
      || (j.status == WaitingPruna && j.nextAction.None? && Elapsed(j.acceptedAt, s.query, now))
      || (At(j, Received, SubmitPruna) && j.acceptedAt.None? && j.notAcceptedAt.None?
          && Elapsed(j.submitStartedAt, s.query, now))
      || (At(j, Received, SubmitPruna) && j.payload.None? && j.notAcceptedAt.Some?
          && (j.retryAt.None? || (Elapsed(j.retryAt, 0, now) && LeaseFree(j, now))))
      || ((j.nextAction == Some(Postprocess) || j.nextAction == Some(RunFallback)) && LeaseFree(j, now)
          && Elapsed(Some(j.updatedAt), s.stale, now))
      || (j.aiStores && At(j, Postprocessing, Postprocess) && j.payload.None? && j.verified.None? && j.imageUrl.None?
          && LeaseFree(j, now) && Elapsed(j.acceptedAt, s.query, now))
      || (j.aiStores && j.nextAction == Some(Postprocess) && j.payload.None? && LeaseFree(j, now)
          && Elapsed(StageStart(j), s.stale, now))
      || (j.nextAction == Some(PublishResult) && j.payload.Some?
          && (j.messageStatus == RetryExhausted || Elapsed(Some(j.updatedAt), s.stale, now))))
  }

  /** A finished job whose generation has no cost on record, within the window. */
  predicate CleanupDue(j: Job, side: Side, now: Time, s: Settings) {
    && Terminal(j) && j.taskUuid.Some? && j.acceptedAt.Some?
    && j.submitStartedAt.Some? && now - s.window <= j.submitStartedAt.value
    && Elapsed(Some(j.updatedAt), s.query, now)
    && !(side.check.Some? && side.check.value.settled) && !side.costRecorded
  }

  /** The whole WHERE clause. */
  predicate Selected(j: Job, side: Side, now: Time, s: Settings) {
    CheckDue(side.check, now) && (SlotStale(side, now, s) || WorkDue(j, now, s) || CleanupDue(j, side, now, s))
  }

  // ----- the inspection -----

  /** Seconds since a recorded instant as the code reads them: a missing one counts as zero. */
  function Age(column: Option<Time>, now: Time): int { if column.Some? then now - column.value else 0 }

  /** Whether the lease looks taken to this process, by its own clock. */
  predicate LeasedAt(j: Job, clock: Time) { j.lease.Some? && clock < j.lease.value.until }

  predicate MissingResultUrl(j: Job) {
    && j.aiStores && At(j, Postprocessing, Postprocess) && j.payload.None? && j.verified.None? && j.imageUrl.None?
    && j.taskUuid.Some? && j.submitStartedAt.Some?
  }

  predicate Stale(j: Job, now: Time, clock: Time, s: Settings) {
    var basis := if j.aiStores && j.nextAction == Some(Postprocess) then StageStart(j) else Some(j.updatedAt);
    Age(basis, now) >= s.stale && !LeasedAt(j, clock)
  }

  function ResubmitDue(j: Job, now: Time, clock: Time): Branch {
    if j.retryAt.None? then ResubmitHeld
    else if now < j.retryAt.value || LeasedAt(j, clock) then ResubmitWaiting
    else Resubmit
  }

  /** A slot held too long for the current task: its status is asked for before anything else. */
  predicate Queried(j: Job, side: Side, now: Time, s: Settings) {
    SlotStale(side, now, s) && j.taskUuid == Some(side.slot.value.task)
  }

  predicate CleanupAllowed(j: Job, side: Side, now: Time, s: Settings) {
    && !side.costRecorded && j.taskUuid.Some? && j.acceptedAt.Some?
    && j.submitStartedAt.Some? && now - j.submitStartedAt.value <= s.window
  }

  /** What one inspection does with the row. */
  function Inspect(j: Job, side: Side, now: Time, clock: Time, s: Settings): Branch {
    var queried := Queried(j, side, now, s);
    if Terminal(j) then CleanupCost(CleanupAllowed(j, side, now, s))
    else if AuthHoldActive(j) then AlertAuthHold
    else if NotAcceptedPending(j) then ResubmitDue(j, now, clock)
    else if At(j, Received, SubmitPruna) && j.submitStartedAt.Some? && j.acceptedAt.None? && j.notAcceptedAt.None? then
      CheckUnknown(Age(j.submitStartedAt, now) >= s.query && !queried)
    else if j.status == WaitingPruna && j.nextAction.None? then
      CheckWaiting(Age(j.acceptedAt, now) >= s.query && !queried)
    else if MissingResultUrl(j) && !LeasedAt(j, clock) && Age(j.acceptedAt, now) >= s.query then RecoverReference
    else if j.nextAction == Some(Postprocess) && Stale(j, now, clock, s) then ContinuePostprocess
    else if j.nextAction == Some(RunFallback) && Stale(j, now, clock, s) then ContinueFallback
    else if j.nextAction == Some(PublishResult) then CheckPublish
    else FallThrough
  }

  // ----- the specification both are measured against -----

  /** Since when the record of a job has been waiting for its next step. */
  function WaitingSince(j: Job, step: Next): Option<Time> {
    match step
    case AwaitWebhook => j.acceptedAt
    case RecoverUnknown => j.submitStartedAt
    case RecoverResultRef => j.acceptedAt
    case ResubmitPruna => j.retryAt
    case DoPostprocess => if j.aiStores then StageStart(j) else Some(j.updatedAt)
    case _ => Some(j.updatedAt)
  }

  function Patience(step: Next, s: Settings): nat {
    match step
    case AwaitWebhook => s.query
    case RecoverUnknown => s.query
    case RecoverResultRef => s.query
    case ResubmitPruna => 0
    case _ => s.stale
  }

  /** Steps a worker may be at right now; the watchdog stays away while its lease is valid. */
  predicate NeedsFreeLease(step: Next) {
    step.RecoverResultRef? || step.ResubmitPruna? || step.DoPostprocess? || step.DoFallback?
  }

  predicate Overdue(j: Job, step: Next, now: Time, s: Settings) {
    Elapsed(WaitingSince(j, step), Patience(step, s), now) && (NeedsFreeLease(step) ==> LeaseFree(j, now))
  }

  /** The recovery that carries on with a step; a question already asked for the slot is not asked again. */
  function Recovery(step: Next, queried: bool): Branch {
    match step
    case AwaitWebhook => CheckWaiting(!queried)
    case RecoverUnknown => CheckUnknown(!queried)
    case RecoverResultRef => RecoverReference
    case ResubmitPruna => Resubmit
    case DoPostprocess => ContinuePostprocess
    case DoFallback => ContinueFallback
    case DoPublish => CheckPublish
    case OperatorReview => AlertAuthHold
  }

  /** Row timestamps that only move forward. */
  predicate Stamped(j: Job, now: Time) {
    && j.updatedAt <= now && (j.acceptedAt.Some? ==> j.acceptedAt.value <= j.updatedAt)
    && (j.verified.Some? ==> j.verified.value.at <= j.updatedAt)
  }

  lemma RowClock(c: Command, j: Job, now: Time)
    requires !c.AttemptCall?
    ensures var j' := RowStep(c, j, now);
            || j'.updatedAt == now
            || (j'.updatedAt == j.updatedAt && j'.acceptedAt == j.acceptedAt && j'.verified == j.verified)
  {}

  lemma RowAccepted(c: Command, j: Job, now: Time)
    requires !c.AttemptCall?
    ensures var at := RowStep(c, j, now).acceptedAt; at == j.acceptedAt || at == Some(now)
  {
    if c.EventCall? { EventAccepted(c, j, now); }
  }

  lemma EventAccepted(c: Command, j: Job, now: Time)
    requires c.EventCall?
    ensures var at := RowStep(c, j, now).acceptedAt; at == j.acceptedAt || at == Some(now)
  {}

  lemma RowVerified(c: Command, j: Job, now: Time)
    requires !c.AttemptCall?
    ensures var v := RowStep(c, j, now).verified; v == j.verified || (v.Some? && v.value.at == now)
  {}

  lemma JudgedStamped(j: Job, attempts: seq<Attempt>, i: nat, code: string, source: Source, retryAfter: Option<nat>,
                      unrepresentable: bool, t0: Time, now: Time, horizon: Time)
    requires i < |attempts| && Stamped(j, t0) && t0 <= now
    ensures Stamped(Judged(j, attempts, i, code, source, retryAfter, unrepresentable, now, horizon).0.job, now)
  {
    hide Verdict, RetryTime, RejectedPayload, MarkConflict;
  }

  lemma ReportStamped(t: Table, task: TaskId, code: string, source: Source, retryAfter: Option<nat>,
                      unrepresentable: bool, t0: Time, now: Time, horizon: Time)
    requires Stamped(t.job, t0) && t0 <= now
    ensures Stamped(NotAcceptedStep(t, task, code, source, retryAfter, unrepresentable, now, horizon).0.job, now)
  {
    hide Judged, KnownAttempts;
    if t.job.taskUuid == Some(task) && t.job.submitStartedAt.Some? {
      var attempts := KnownAttempts(t, task);
      var i := Find(attempts, task);
      if i < |attempts| {
        JudgedStamped(t.job, attempts, i, code, source, retryAfter, unrepresentable, t0, now, horizon);
      }
    }
  }

  lemma ContradictionStamped(t: Table, task: TaskId, reason: string, t0: Time, now: Time)
    requires Stamped(t.job, t0) && t0 <= now
    ensures Stamped(ContradictionStep(t, task, reason, now).job, now)
  {
    hide MarkConflict;
  }

  lemma CancelStamped(t: Table, task: TaskId, t0: Time, now: Time)
    requires Stamped(t.job, t0) && t0 <= now
    ensures Stamped(CancelStep(t, task, now).job, now)
  {
    hide Previous, Without;
  }

  /** The reports about attempts never touch what a stage start is read from. */
  lemma AttemptStamped(c: AttemptCommand, t: Table, t0: Time, now: Time, horizon: Time)
    requires Stamped(t.job, t0) && t0 <= now
    ensures Stamped(AttemptStep(c, t, now, horizon).job, now)
  {
    hide NotAcceptedStep, ContradictionStep, CancelStep, CancelAllowed, BeginSubmissionAllowed, BeginRetryAllowed;
    match c
    case NotAcceptedReport(task, code, source, retryAfter, unrepresentable) =>
      ReportStamped(t, task, code, source, retryAfter, unrepresentable, t0, now, horizon);
    case Contradiction(task, reason) => ContradictionStamped(t, task, reason, t0, now);
    case CancelUnsent(token, task) => CancelStamped(t, task, t0, now);
    case _ =>
  }

  lemma StepStamped(c: Command, t: Table, t0: Time, now: Time, horizon: Time)
    requires Stamped(t.job, t0) && t0 <= now
    ensures Stamped(Step(c, t, now, horizon).job, now)
  {
    hide RowStep, AttemptStep;
    match c
    case AttemptCall(a) => AttemptStamped(a, t, t0, now, horizon);
    case _ =>
      RowClock(c, t.job, now);
      RowAccepted(c, t.job, now);
      RowVerified(c, t.job, now);
  }

  /** All calls were made since the row was created, and none lies ahead. */
  predicate Within(calls: seq<Call>, start: Time, now: Time) {
    start <= now && forall i :: 0 <= i < |calls| ==> start <= calls[i].at <= now
  }

  /** In every run the acceptance and the verification lie no later than the last update, and that not ahead. */
  lemma {:induction false} RunStamped(id: int, fingerprint: string, start: Time, calls: seq<Call>, now: Time,
                                      horizon: Time)
    requires Lawful(Created(id, fingerprint, start), calls, horizon) && Within(calls, start, now)
    ensures Inv(Run(Created(id, fingerprint, start), calls, horizon))
    ensures Stamped(Run(Created(id, fingerprint, start), calls, horizon).job, now)
    decreases |calls|
  {
    hide Inv, Step, Honest;
    var t := Created(id, fingerprint, start);
    InitInvariant(id, fingerprint, start);
    RunKeepsInvariant(t, calls, horizon);
    if calls != [] {
      var n := |calls| - 1;
      LawfulPrefix(t, calls, horizon);
      RunStamped(id, fingerprint, start, calls[..n], calls[n].at, horizon);
      StepStamped(calls[n].command, Run(t, calls[..n], horizon), calls[n].at, calls[n].at, horizon);
    }
  }

  // ----- the three classifiers agree -----

  /** The row as it would be without an auth hold: the query does not read the hold. */
  function Unheld(j: Job): Job { j.(authHold := None) }

  /** The next step is overdue, or a person has to look at the row. */
  predicate NeedsAttention(j: Job, now: Time, s: Settings) {
    && NextStepFor(Unheld(j)).Some?
    && var step := NextStepFor(Unheld(j)).value;
       Overdue(j, step, now, s) || step.OperatorReview? || j.messageStatus == RetryExhausted
  }

  lemma WorkDueExactly(t: Table, now: Time, s: Settings)
    requires Inv(t) && Stamped(t.job, now) && s.query <= s.stale
    ensures WorkDue(t.job, now, s) <==> NeedsAttention(t.job, now, s)
  {}

  /** On every reachable row the query's conditions say just this: the check is due, and a slot is stale, the job needs
      attention, or its cost is still to be looked for. */
  lemma SelectedExactly(id: int, fingerprint: string, start: Time, calls: seq<Call>, horizon: Time, side: Side,
                        now: Time, s: Settings)
    requires Lawful(Created(id, fingerprint, start), calls, horizon) && Within(calls, start, now)
    requires s.query <= s.stale
    ensures var j := Run(Created(id, fingerprint, start), calls, horizon).job;
            Selected(j, side, now, s) <==>
              && (side.check.None? || side.check.value.nextAt <= now)
              && (|| (side.slot.Some? && side.slot.value.since + s.stale <= now)
                  || NeedsAttention(j, now, s)
                  || ((j.status == Completed || j.status == Failed)
                      && j.acceptedAt.Some? && j.submitStartedAt.Some? && now <= j.submitStartedAt.value + s.window
                      && j.updatedAt + s.query <= now && !side.costRecorded
                      && (side.check.Some? ==> !side.check.value.settled)))
  {
    hide Run, Lawful, Stamped, WorkDue, NeedsAttention;
    RunStamped(id, fingerprint, start, calls, now, horizon);
    var t := Run(Created(id, fingerprint, start), calls, horizon);
    assert t.job.acceptedAt.Some? ==> t.job.submitStartedAt.Some? && t.job.taskUuid.Some?;
    hide Inv;
    WorkDueExactly(t, now, s);
  }

  /** No reachable row with a step the watchdog carries on with is left out once that step is overdue. */
  lemma OverdueIsDue(t: Table, now: Time, s: Settings)
    requires Inv(t) && NextStepFor(t.job).Some?
    ensures var step := NextStepFor(t.job).value;
            !step.OperatorReview? && Overdue(t.job, step, now, s) ==> WorkDue(t.job, now, s)
  {}

  /** Inspecting an overdue row takes that step's own recovery exactly when this process's clock agrees on the lease. */
  lemma InspectionRecovers(t: Table, side: Side, now: Time, clock: Time, s: Settings)
    requires Inv(t) && NextStepFor(t.job).Some? && !NextStepFor(t.job).value.OperatorReview?
    requires Overdue(t.job, NextStepFor(t.job).value, now, s)
    ensures var step := NextStepFor(t.job).value;
            Inspect(t.job, side, now, clock, s) == Recovery(step, Queried(t.job, side, now, s)) <==>
              (NeedsFreeLease(step) ==> !LeasedAt(t.job, clock))
  {
    hide ResultFits, OneImageSource, Keyed, Bounded;
  }

  /** The current task was sent, and confirmed as not accepted; nobody has refused the key. */
  predicate Rejected(j: Job) {
    j.nextAction == Some(SubmitPruna) && j.notAcceptedAt.Some? && !KeyRefused(j)
  }

  /** A stale slot of the current task, about which the provider has been asked already. */
  predicate AskedForSlot(j: Job, side: Side, now: Time, s: Settings) {
    && side.slot.Some? && side.slot.value.since + s.stale <= now
    && j.taskUuid == Some(side.slot.value.task)
  }

  /** What the inspection of any legal row does before the stage of its image, told from the columns: when it asks the
      provider, when it sends again, and when it only tells a person. */
  lemma InspectionExactly(t: Table, side: Side, now: Time, clock: Time, s: Settings)
    requires Inv(t)
    ensures var j, b := t.job, Inspect(t.job, side, now, clock, s);
            var unleased := j.lease.None? || j.lease.value.until <= clock;
            && (b == AlertAuthHold <==> KeyRefused(j))
            && (b == ResubmitHeld <==> Rejected(j) && j.retryAt.None?)
            && (b == Resubmit <==> Rejected(j) && j.retryAt.Some? && j.retryAt.value <= now && unleased)
            && (b == ResubmitWaiting <==> Rejected(j) && j.retryAt.Some? && !(j.retryAt.value <= now && unleased))
            && (b.CheckUnknown? <==>
                  && j.nextAction == Some(SubmitPruna) && j.submitStartedAt.Some? && j.notAcceptedAt.None?
                  && !KeyRefused(j))
            && (b.CheckUnknown? ==>
                  (b.query <==> j.submitStartedAt.value + s.query <= now && !AskedForSlot(j, side, now, s)))
            && (b.CheckWaiting? <==> j.status == WaitingPruna && j.payload.None? && !KeyRefused(j))
            && (b.CheckWaiting? ==>
                  (b.query <==> j.acceptedAt.value + s.query <= now && !AskedForSlot(j, side, now, s)))
            && (b.CleanupCost? <==> j.status == Completed || j.status == Failed)
            && (b.CleanupCost? ==>
                  (b.ask <==> && !side.costRecorded && j.acceptedAt.Some?
                              && j.submitStartedAt.Some? && now <= j.submitStartedAt.value + s.window))
  {
    hide ResultFits, OneImageSource, Keyed, Bounded;
  }

  /** And at the stages of the image and of the result. */
  lemma InspectionExactlyLater(t: Table, side: Side, now: Time, clock: Time, s: Settings)
    requires Inv(t)
    ensures var j, b := t.job, Inspect(t.job, side, now, clock, s);
            var unleased := j.lease.None? || j.lease.value.until <= clock;
            var recover := j.nextAction == Some(Postprocess) && j.aiStores && j.verified.None? && j.imageUrl.None?
                           && unleased && j.acceptedAt.value + s.query <= now;
            var since := if !j.aiStores || j.nextAction == Some(RunFallback) then j.updatedAt
                         else if j.verified.Some? then j.verified.value.at
                         else if j.acceptedAt.Some? then j.acceptedAt.value else now;
            && (b == RecoverReference <==> recover)
            && (b == ContinuePostprocess <==>
                  j.nextAction == Some(Postprocess) && unleased && since + s.stale <= now && !recover)
            && (b == ContinueFallback <==> j.nextAction == Some(RunFallback) && unleased && since + s.stale <= now)
            && (b == CheckPublish <==> j.nextAction == Some(PublishResult))
            && (b == FallThrough <==>
                  (j.nextAction == Some(Postprocess) || j.nextAction == Some(RunFallback) || Unstarted(j))
                  && b != RecoverReference && b != ContinuePostprocess && b != ContinueFallback)
  {
    hide ResultFits, OneImageSource, Keyed, Bounded;
  }

  /** The inspection does nothing for the job. */
  predicate Idle(b: Branch, queried: bool) {
    match b
    case CleanupCost(ask) => !ask
    case ResubmitWaiting => true
    case CheckUnknown(query) => !query && !queried
    case CheckWaiting(query) => !query && !queried
    case FallThrough => true
    case _ => false
  }

  /** No row is selected for its own sake and then passed over, as long as both clocks agree that its lease is over. */
  lemma SelectedIsActedOn(t: Table, side: Side, now: Time, clock: Time, s: Settings)
    requires Inv(t) && Stamped(t.job, now) && s.query <= s.stale
    requires WorkDue(t.job, now, s) || CleanupDue(t.job, side, now, s)
    requires LeaseFree(t.job, now) ==> !LeasedAt(t.job, clock)
    ensures !Idle(Inspect(t.job, side, now, clock, s), Queried(t.job, side, now, s))
  {}

  // ----- a slow process clock -----

  /** A job submitted and generated at time 0, with another worker at its post-processing a while later. */
  function SlowClockRun(s: Settings): seq<Call> {
    FirstRun() + [Call(LeaseCall(Release(1)), 0)] + [Call(EventCall(1, Succeeded(Some("u"), None)), 0)]
    + [Call(LeaseCall(Acquire(2, Postprocess, SECOND)), s.stale)]
  }

  /** It takes no more than a process clock behind the database's: in a run from a new job, a row comes to be overdue
      and selected, and nothing is done. */
  lemma SlowClockFallsThrough(s: Settings, horizon: Time)
    ensures var t, now := Run(Created(7, "", 0), SlowClockRun(s), horizon), s.stale + SECOND;
            && Lawful(Created(7, "", 0), SlowClockRun(s), horizon) && Within(SlowClockRun(s), 0, now)
            && NextStepFor(t.job) == Some(DoPostprocess) && Overdue(t.job, DoPostprocess, now, s)
            && Selected(t.job, Side(None, None, false), now, s)
            && Inspect(t.job, Side(None, None, false), now, now - 1, s) == FallThrough
  {
    hide Run, Lawful;
    var t, calls := Created(7, "", 0), FirstRun();
    FirstRunSubmits(horizon);
    var release, success := Call(LeaseCall(Release(1)), 0), Call(EventCall(1, Succeeded(Some("u"), None)), 0);
    LawfulMore(t, calls, release, horizon);
    LawfulMore(t, calls + [release], success, horizon);
    LawfulMore(t, calls + [release] + [success], Call(LeaseCall(Acquire(2, Postprocess, SECOND)), s.stale), horizon);
  }

  // ----- recovery after a fixed wait -----

  /** The latest instant at which a row that stays as it is is still left to others. */
  function Deadline(j: Job, side: Side, step: Next, s: Settings): Time {
    var waited := (match WaitingSince(j, step) case Some(at) => at case None => 0) + Patience(step, s);
    var free := if j.lease.Some? && waited < j.lease.value.until then j.lease.value.until else waited;
    if side.check.Some? && free < side.check.value.nextAt then side.check.value.nextAt else free
  }

  /** A row that a path has promised to carry on is taken up by the watchdog after a fixed wait, whatever else fails. */
  lemma PromisedRowsAreRecovered(t: Table, side: Side, p: Paths, now: Time, clock: Time, s: Settings)
    requires Inv(t) && NextStepFor(t.job).Some?
    requires WatchdogReady(p, t.job, NextStepFor(t.job).value) || PostprocessReady(p, t.job, NextStepFor(t.job).value)
    requires Deadline(t.job, side, NextStepFor(t.job).value, s) <= now && !LeasedAt(t.job, clock)
    ensures Selected(t.job, side, now, s)
    ensures Inspect(t.job, side, now, clock, s) == Recovery(NextStepFor(t.job).value, Queried(t.job, side, now, s))
  {
    var step := NextStepFor(t.job).value;
    assert WaitingSince(t.job, step).Some?;
    OverdueIsDue(t, now, s);
    InspectionRecovers(t, side, now, clock, s);
  }
}
