/** The repositories as objects that lock the job's row and change it in place, one transaction per method. */
module Repository {
  import opened Basics
  import opened Jobs
  import opened Transitions

  datatype ChangeReason =
    | AppliedNow | NotFoundRow | TerminalRow | LeaseInvalid | LeaseHeld | LimitReached
    | AlreadyThere | Mismatch
    | BadArgument  // the method raised ValueError before it reached the database

  datatype StateChange = StateChange(applied: bool, reason: ChangeReason, job: Option<Job>)

  const REJECTED := StateChange(false, BadArgument, None)

  /** The reason order of a worker method that changed nothing. */
  function WhyNot(j: Job, now: Time, token: Option<Token>, terminalOk: bool, diagnosis: ChangeReason): ChangeReason {
    if Terminal(j) && !terminalOk then TerminalRow
    else if token.Some? && !LeaseValid(j, token.value, now) then LeaseInvalid
    else diagnosis
  }

  /** Everything a method promises about one call: the step it made, or the reason it made none. */
  ghost predicate Called(c: Command, before: Option<Table>, after: Option<Table>, now: Time, horizon: Time,
                         change: StateChange)
  {
    && (change.reason == AppliedNow <==> change.applied)
    && match before
       case None => after == None && !change.applied
       case Some(t) =>
         && after == Some(Step(c, t, now, horizon))
         && change.applied == Applies(c, t, now, horizon)
         && (change.job.Some? ==> change.job == Some(after.value.job))
         && (change.job.None? ==> change.reason == BadArgument || change.reason == NotFoundRow)
         && (change.reason == LeaseInvalid ==> TokenOf(c).Some? && !LeaseValid(t.job, TokenOf(c).value, now))
         && (change.reason == TerminalRow ==> Terminal(t.job))
  }

  /** A refusal of a call under a token is explained by the first of these that fits: there is no such job, it is
      finished, the token is not valid, and then what the call itself finds wrong. */
  ghost predicate Explained(before: Option<Table>, now: Time, token: Token, change: StateChange, own: ChangeReason) {
    !change.applied ==>
      change.reason ==
        if before.None? then NotFoundRow
        else if Terminal(before.value.job) then TerminalRow
        else if !LeaseValid(before.value.job, token, now) then LeaseInvalid
        else own
  }

  /** One job's part of the database: its row, its attempts, and the statement clock. */
  class Database {
    var table: Option<Table>
    var clock: Time
    const horizon: Time  // the latest instant a timestamp column can hold

    constructor (clock: Time, horizon: Time)
      ensures table == None && this.clock == clock && this.horizon == horizon
    {
      table := None;
      this.clock, this.horizon := clock, horizon;
    }
  }

  class AsyncJobStateRepository {
    const db: Database

    constructor (db: Database)
      ensures this.db == db
    {
      this.db := db;
    }

    // ----- the shared transaction -----

    /** Lock the row, run the conditional UPDATE, and explain a miss from the row as it is. */
    method Update(assign: Job -> Job, condition: Job -> bool, diagnose: Job -> ChangeReason,
                  token: Option<Token>, terminalOk: bool)
      returns (change: StateChange)
      modifies db`table
      ensures old(db.table).None? ==> db.table == None && change == StateChange(false, NotFoundRow, None)
      ensures old(db.table).Some? ==>
        var j := old(db.table).value.job;
        var hit := condition(j) && (token.Some? ==> LeaseValid(j, token.value, db.clock));
        && db.table == Some(Table(if hit then assign(j).(updatedAt := db.clock) else j, old(db.table).value.attempts))
        && change == StateChange(hit, if hit then AppliedNow else WhyNot(j, db.clock, token, terminalOk, diagnose(j)),
                                 Some(db.table.value.job))
    {
      if db.table.None? { return StateChange(false, NotFoundRow, None); }
      var t, now := db.table.value, db.clock;
      var j := t.job;
      if condition(j) && (token.None? || LeaseValid(j, token.value, now)) {
        var changed := assign(j).(updatedAt := now);
        db.table := Some(Table(changed, t.attempts));
        return StateChange(true, AppliedNow, Some(changed));
      }
      change := StateChange(false, WhyNot(j, now, token, terminalOk, diagnose(j)), Some(j));
    }

    /** The same for an external event: the row is found by its current task, and no token is asked for. */
    method EventUpdate(task: TaskId, assign: Job -> Job, condition: Job -> bool, stamp: bool)
      returns (change: StateChange)
      modifies db`table
      ensures old(db.table).None? ==> db.table == None && change == StateChange(false, NotFoundRow, None)
      ensures old(db.table).Some? ==>
        var j := old(db.table).value.job;
        var hit := EventAllowed(j, task) && condition(j);
        var changed := if stamp then assign(j).(updatedAt := db.clock) else assign(j);
        && db.table == Some(Table(if hit then changed else j, old(db.table).value.attempts))
        && change.applied == hit
        && (if j.taskUuid != Some(task) then change == StateChange(false, NotFoundRow, None)
            else change == StateChange(hit, if hit then AppliedNow else if Terminal(j) then TerminalRow else Mismatch,
                                       Some(db.table.value.job)))
    {
      if db.table.None? || db.table.value.job.taskUuid != Some(task) {
        return StateChange(false, NotFoundRow, None);
      }
      var t := db.table.value;
      var j := t.job;
      if j.submitStartedAt.Some? && !Terminal(j) && condition(j) {
        var changed := assign(j);
        if stamp { changed := changed.(updatedAt := db.clock); }
        db.table := Some(Table(changed, t.attempts));
        return StateChange(true, AppliedNow, Some(changed));
      }
      change := StateChange(false, if Terminal(j) then TerminalRow else Mismatch, Some(j));
    }

    /** Limit check, state check, lease check and the increment in one statement. */
    method Claim(token: Token, assign: Job -> Job, condition: Job -> bool, count: Job -> nat, limit: nat,
                 done: Job -> bool)
      returns (change: StateChange)
      modifies db`table
      ensures old(db.table).None? ==> db.table == None && change == StateChange(false, NotFoundRow, None)
      ensures old(db.table).Some? ==>
        var j := old(db.table).value.job;
        var hit := condition(j) && count(j) < limit && LeaseValid(j, token, db.clock);
        var diagnosis := if count(j) >= limit then LimitReached else if done(j) then AlreadyThere else Mismatch;
        && db.table == Some(Table(if hit then assign(j).(updatedAt := db.clock) else j, old(db.table).value.attempts))
        && change == StateChange(hit, if hit then AppliedNow else WhyNot(j, db.clock, Some(token), false, diagnosis),
                                 Some(db.table.value.job))
    {
      change := Update(assign, (j: Job) => condition(j) && count(j) < limit,
        (j: Job) => if count(j) >= limit then LimitReached else if done(j) then AlreadyThere else Mismatch,
        Some(token), false);
    }

    // ----- leases -----

    method AcquireLease(token: Token, action: NextAction, duration: int) returns (change: StateChange)
      modifies db`table
      ensures Called(LeaseCall(Acquire(token, action, duration)), old(db.table), db.table, db.clock, db.horizon, change)
      ensures change.reason == BadArgument <==> !(0 < duration <= MAX_LEASE)
      ensures old(db.table).Some? && 0 < duration <= MAX_LEASE && !change.applied ==>
        var j := old(db.table).value.job;
        change.reason ==
          if Terminal(j) then TerminalRow else if j.nextAction != Some(action) then Mismatch else LeaseHeld
    {
      if duration <= 0 || duration > MAX_LEASE { return REJECTED; }
      var now := db.clock;
      change := Update((j: Job) => j.(lease := Some(Lease(token, now + duration))),
        (j: Job) => !Terminal(j) && j.nextAction == Some(action) && (j.lease.None? || j.lease.value.until <= now),
        (j: Job) => if j.nextAction != Some(action) then Mismatch else LeaseHeld,
        None, false);
    }

    method RenewLease(token: Token, duration: int) returns (change: StateChange)
      modifies db`table
      ensures Called(LeaseCall(Renew(token, duration)), old(db.table), db.table, db.clock, db.horizon, change)
    {
      if duration <= 0 || duration > MAX_LEASE { return REJECTED; }
      var now := db.clock;
      change := Update((j: Job) => j.(lease := Some(Lease(token, now + duration))), (j: Job) => !Terminal(j),
                       (j: Job) => Mismatch, Some(token), false);
    }

    method ReleaseLease(token: Token) returns (change: StateChange)
      modifies db`table
      ensures Called(LeaseCall(Release(token)), old(db.table), db.table, db.clock, db.horizon, change)
    {
      change := Update((j: Job) => j.(lease := None), (j: Job) => true, (j: Job) => Mismatch, Some(token), true);
    }

    /** A plain read: whether the token is valid right now. */
    method HoldsLease(token: Token) returns (valid: bool)
      ensures valid <==> db.table.Some? && LeaseValid(db.table.value.job, token, db.clock)
    {
      valid := db.table.Some? && LeaseValid(db.table.value.job, token, db.clock);
    }

    // ----- submission -----

    method PreparePrunaSubmission(token: Token, task: TaskId, key: Key, ai: bool) returns (change: StateChange)
      modifies db`table
      ensures Called(SubmitCall(token, Prepare(task, key, ai)), old(db.table), db.table, db.clock, db.horizon, change)
      ensures change.reason == BadArgument <==> !ValidKey(key)
      ensures ValidKey(key) ==>
        Explained(old(db.table), db.clock, token, change,
          if old(db.table).Some? && old(db.table).value.job.taskUuid.Some? then AlreadyThere else Mismatch)
    {
      if !ValidKey(key) { return REJECTED; }
      change := Update((j: Job) => j.(taskUuid := Some(task), asyncImageKey := Some(key), aiStores := ai),
        (j: Job) => && j.status == Received && j.nextAction == Some(SubmitPruna)
                    && j.taskUuid.None? && j.submitStartedAt.None?,
        (j: Job) => if j.taskUuid.Some? then AlreadyThere else Mismatch, Some(token), false);
    }

    method MarkPrunaSubmitStarted(token: Token) returns (change: StateChange)
      modifies db`table
      ensures Called(SubmitCall(token, MarkStarted), old(db.table), db.table, db.clock, db.horizon, change)
      ensures Explained(old(db.table), db.clock, token, change,
        if old(db.table).Some? && old(db.table).value.job.submitStartedAt.Some? then AlreadyThere else Mismatch)
    {
      var now := db.clock;
      change := Update((j: Job) => j.(submitStartedAt := Some(now)),
        (j: Job) => && j.status == Received && j.nextAction == Some(SubmitPruna)
                    && j.taskUuid.Some? && j.submitStartedAt.None?,
        (j: Job) => if j.submitStartedAt.Some? then AlreadyThere else Mismatch, Some(token), false);
    }

    method RecordRunwareAccepted(token: Token, task: TaskId) returns (change: StateChange)
      modifies db`table
      ensures Called(SubmitCall(token, RunwareAccepted(task)), old(db.table), db.table, db.clock, db.horizon, change)
    {
      var now := db.clock;
      change := Update(
        (j: Job) => var waiting := j.status == Received && j.nextAction == Some(SubmitPruna);
                    j.(acceptedAt := Coalesce(j.acceptedAt, Some(now)),
                       status := if waiting then WaitingPruna else j.status,
                       nextAction := if waiting then None else j.nextAction),
        (j: Job) => !Terminal(j) && j.taskUuid == Some(task) && j.submitStartedAt.Some?, (j: Job) => Mismatch,
        Some(token), false);
    }

    // ----- external events -----

    method RecordSubmissionAccepted(task: TaskId) returns (change: StateChange)
      modifies db`table
      ensures Called(EventCall(task, SubmissionAccepted), old(db.table), db.table, db.clock, db.horizon, change)
    {
      var now := db.clock;
      change := EventUpdate(task,
        (j: Job) => var waiting := j.status == Received && j.nextAction == Some(SubmitPruna);
                    j.(acceptedAt := Coalesce(j.acceptedAt, Some(now)),
                       status := if waiting then WaitingPruna else j.status,
                       nextAction := if waiting then None else j.nextAction),
        (j: Job) => true, true);
    }

    method RecordAuthHold(task: TaskId, reason: string) returns (change: StateChange)
      modifies db`table
      ensures Called(EventCall(task, HoldForAuth(reason)), old(db.table), db.table, db.clock, db.horizon, change)
      ensures change.reason == AlreadyThere <==>
        && !change.applied && old(db.table).Some? && old(db.table).value.job.taskUuid == Some(task)
        && old(db.table).value.job.authHold.Some? && old(db.table).value.job.authHold.value.task == task
    {
      var now := db.clock;
      change := EventUpdate(task, (j: Job) => j.(authHold := Some(AuthHold(task, reason, now))),
        (j: Job) => && (j.status == Received || j.status == WaitingPruna) && j.payload.None?
                    && (j.nextAction.None? || j.nextAction == Some(SubmitPruna)) && j.authHold.None?,
        true);
      if !change.applied && change.job.Some? {
        var j := change.job.value;
        if j.authHold.Some? && j.taskUuid == Some(j.authHold.value.task) {
          change := StateChange(false, AlreadyThere, Some(j));
        }
      }
    }

    method RecordPrunaSucceeded(task: TaskId, url: Option<string>, uuid: Option<nat>) returns (change: StateChange)
      modifies db`table
      ensures Called(EventCall(task, Succeeded(url, uuid)), old(db.table), db.table, db.clock, db.horizon, change)
    {
      var now := db.clock;
      change := EventUpdate(task,
        (j: Job) => j.(status := Postprocessing, nextAction := Some(Postprocess),
                       acceptedAt := Coalesce(j.acceptedAt, Some(now)), imageUrl := url, imageUuid := uuid),
        (j: Job) => (j.status == Received || j.status == WaitingPruna) && j.payload.None?, true);
    }

    method FillPrunaImageRef(task: TaskId, url: Option<string>, uuid: Option<nat>, confirmed: bool)
      returns (change: StateChange)
      modifies db`table
      ensures Called(EventCall(task, FillImageRef(url, uuid, confirmed)), old(db.table), db.table, db.clock,
                     db.horizon, change)
    {
      if url.None? && uuid.None? { return REJECTED; }
      change := EventUpdate(task,
        (j: Job) => j.(imageUrl := Coalesce(j.imageUrl, url), imageUuid := Coalesce(j.imageUuid, uuid)),
        (j: Job) => && j.status == Postprocessing && j.nextAction == Some(Postprocess) && j.payload.None?
                    && (j.imageUrl.None? || url.None? || j.imageUrl == url)
                    && (j.imageUuid.None? || uuid.None? || j.imageUuid == uuid)
                    && ((j.imageUrl.Some? && j.imageUrl == url) || (j.imageUuid.Some? && j.imageUuid == uuid)
                        || (confirmed && j.aiStores))
                    && ((j.imageUrl.None? && url.Some?) || (j.imageUuid.None? && uuid.Some?)),
        false);
    }

    /** failure == None hands the job to the fallback; Some is the final failure result to publish. */
    method RecordPrunaFailed(task: TaskId, failure: Option<Payload>) returns (change: StateChange)
      modifies db`table
      ensures Called(EventCall(task, if failure.None? then FailedRecoverable else FailedFinal(failure.value)),
                     old(db.table), db.table, db.clock, db.horizon, change)
    {
      hide ValidKey;
      var now := db.clock;
      if failure.None? {
        change := EventUpdate(task,
          (j: Job) => j.(status := FallbackRunning, nextAction := Some(RunFallback),
                       acceptedAt := Coalesce(j.acceptedAt, Some(now))),
          FailureAllowed, true);
        return;
      }
      var p := failure.value;
      if !WellFormed(p) || !p.FailedResult? { return REJECTED; }
      change := EventUpdate(task,
        (j: Job) => j.(payload := Some(p), nextAction := Some(PublishResult),
                       acceptedAt := Coalesce(j.acceptedAt, Some(now))),
        (j: Job) => FailureAllowed(j) && p.jobId == j.id, true);
    }

    // ----- confirmed "not accepted" -----

    method RecordNotAccepted(task: TaskId, code: string, source: Source, retryAfter: Option<nat>, unrepresentable: bool)
      returns (outcome: NotAcceptedOutcome, job: Option<Job>)
      modifies db`table
      ensures old(db.table).None? ==> db.table == None && outcome == UnknownTask
      ensures old(db.table).Some? ==>
        var stepped := NotAcceptedStep(old(db.table).value, task, code, source, retryAfter, unrepresentable,
                                       db.clock, db.horizon);
        db.table == Some(stepped.0) && outcome == stepped.1
    {
      if db.table.None? { return UnknownTask, None; }
      var t, now := db.table.value, db.clock;
      var j, attempts := t.job, t.attempts;
      if j.taskUuid != Some(task) {
        var past := Find(attempts, task);
        return if past < |attempts| then PastAttempt else UnknownTask, if past < |attempts| then Some(j) else None;
      }
      if j.submitStartedAt.None? { return StateMismatch, Some(j); }
      if attempts == [] {
        attempts := [Attempt(1, task, j.submitStartedAt.value, None, None, None)];
      }
      var i := Find(attempts, task);
      if i == |attempts| { return StateMismatch, Some(j); }
      outcome := Judge(j, attempts, i, code, source, retryAfter, unrepresentable);
      job := Some(db.table.value.job);
    }

    /** The second half of the same transaction, once the attempt is found. */
    method Judge(row: Job, attempts: seq<Attempt>, i: nat, code: string, source: Source,
                 retryAfter: Option<nat>, unrepresentable: bool)
      returns (outcome: NotAcceptedOutcome)
      requires i < |attempts|
      modifies db`table
      ensures (db.table, outcome) ==
        var r := Judged(row, attempts, i, code, source, retryAfter, unrepresentable, db.clock, db.horizon);
        (Some(r.0), r.1)
    {
      var j, now, a := row, db.clock, attempts[i];
      db.table := Some(Table(j, attempts));
      if a.notAccepted.Some? { return AlreadyRecorded; }
      if Terminal(j) { return StateMismatch; }
      if j.acceptedAt.Some? || j.verified.Some? || j.status != Received {
        a := MarkConflict(a, PROGRESS_CONFLICT, now);
        db.table := Some(Table(j, attempts[i := a]));
        return Contradicted;
      }
      if j.nextAction != Some(SubmitPruna) || j.payload.Some? || j.authHold.Some? { return StateMismatch; }
      a := a.(notAccepted := Some(NotAccepted(code, source, now)), nextAt := None);
      j := j.(notAcceptedAt := Some(now), retryAt := None, updatedAt := now);
      if a.no >= PRUNA_SUBMIT_LIMIT {
        outcome := Exhausted;
        j := j.(payload := Some(RejectedPayload(j.id)), nextAction := Some(PublishResult));
      } else {
        outcome := HeldBack;
        if !unrepresentable {
          var at := now + RetryDelay(a.no, retryAfter);
          if at <= db.horizon {  // otherwise the savepoint is rolled back and the retry held
            outcome := Scheduled;
            a, j := a.(nextAt := Some(at)), j.(retryAt := Some(at));
          }
        }
      }
      db.table := Some(Table(j, attempts[i := a]));
    }

    method RecordAttemptContradiction(task: TaskId, reason: string) returns (recorded: bool)
      modifies db`table
      ensures old(db.table).None? ==> db.table == None && !recorded
      ensures old(db.table).Some? ==>
        && db.table == Some(ContradictionStep(old(db.table).value, task, reason, db.clock))
        && recorded == AttemptApplies(Contradiction(task, reason), old(db.table).value, db.clock, db.horizon)
    {
      if db.table.None? { return false; }
      var t, now := db.table.value, db.clock;
      var i := Find(t.attempts, task);
      if i == |t.attempts| || t.attempts[i].notAccepted.None? { return false; }
      var j := t.job;
      var a := MarkConflict(t.attempts[i], reason, now);
      if j.retryAt.Some? && j.status == Received && j.nextAction == Some(SubmitPruna) && j.payload.None? {
        j := j.(retryAt := None, updatedAt := now);
      }
      db.table := Some(Table(j, t.attempts[i := a]));
      recorded := true;
    }

    // ----- post-processing and fallback -----

    method ClaimS3CheckAttempt(token: Token) returns (change: StateChange)
      modifies db`table
      ensures Called(StageCall(token, ClaimS3Check), old(db.table), db.table, db.clock, db.horizon, change)
      ensures change.reason == AlreadyThere ==>
        old(db.table).Some? && old(db.table).value.job.verified.Some? && db.table == old(db.table)
        && change.job == Some(db.table.value.job)
      ensures Explained(old(db.table), db.clock, token, change,
        if old(db.table).None? then NotFoundRow
        else if old(db.table).value.job.s3Attempts >= S3_CHECK_LIMIT then LimitReached
        else if old(db.table).value.job.verified.Some? then AlreadyThere else Mismatch)
    {
      change := Claim(token, (j: Job) => j.(s3Attempts := j.s3Attempts + 1),
        (j: Job) => && j.status == Postprocessing && j.nextAction == Some(Postprocess)
                    && j.verified.None? && j.payload.None?,
        (j: Job) => j.s3Attempts, S3_CHECK_LIMIT, (j: Job) => j.verified.Some?);
    }

    method RecordImageVerified(token: Token, key: Key) returns (change: StateChange)
      modifies db`table
      ensures Called(StageCall(token, RecordVerified(key)), old(db.table), db.table, db.clock, db.horizon, change)
      ensures change.reason == BadArgument <==> !ValidKey(key)
      ensures ValidKey(key) ==>
        Explained(old(db.table), db.clock, token, change,
          if old(db.table).Some? && old(db.table).value.job.verified.Some? then AlreadyThere else Mismatch)
    {
      if !ValidKey(key) { return REJECTED; }
      var now := db.clock;
      change := Update((j: Job) => j.(verified := Some(Verified(key, now))),
        (j: Job) => && j.status == Postprocessing && j.nextAction == Some(Postprocess)
                    && j.verified.None? && j.payload.None?,
        (j: Job) => if j.verified.Some? then AlreadyThere else Mismatch, Some(token), false);
    }

    method ClaimLlmGenerationAttempt(token: Token) returns (change: StateChange)
      modifies db`table
      ensures Called(StageCall(token, ClaimLlm), old(db.table), db.table, db.clock, db.horizon, change)
      ensures change.reason == LimitReached ==> db.table == old(db.table)
      ensures Explained(old(db.table), db.clock, token, change,
        if old(db.table).None? then NotFoundRow
        else if old(db.table).value.job.llmAttempts >= LLM_GENERATION_LIMIT then LimitReached
        else if old(db.table).value.job.payload.Some? then AlreadyThere else Mismatch)
    {
      change := Claim(token, (j: Job) => j.(llmAttempts := j.llmAttempts + 1),
        (j: Job) => && j.payload.None?
                    && ((j.status == Postprocessing && j.nextAction == Some(Postprocess) && j.verified.Some?)
                        || (j.status == FallbackRunning && j.nextAction == Some(RunFallback) && j.fallbackKey.Some?)),
        (j: Job) => j.llmAttempts, LLM_GENERATION_LIMIT, (j: Job) => j.payload.Some?);
    }

    method MoveJobToFallback(token: Token, finalCheck: S3State) returns (change: StateChange)
      modifies db`table
      ensures Called(StageCall(token, MoveToFallback(finalCheck)), old(db.table), db.table, db.clock, db.horizon,
                     change)
    {
      if !finalCheck.NotFound? { return REJECTED; }
      change := Update((j: Job) => j.(status := FallbackRunning, nextAction := Some(RunFallback)),
        (j: Job) => && j.status == Postprocessing && j.nextAction == Some(Postprocess)
                    && j.s3Attempts >= S3_CHECK_LIMIT && j.payload.None? && j.verified.None?
                    && j.fallbackAttempts < FALLBACK_LIMIT,
        (j: Job) => if j.fallbackAttempts >= FALLBACK_LIMIT then LimitReached else Mismatch, Some(token), false);
    }

    method PrepareFallbackTask(token: Token, task: TaskId) returns (change: StateChange)
      modifies db`table
      ensures Called(StageCall(token, PrepareFallback(task)), old(db.table), db.table, db.clock, db.horizon, change)
      ensures Explained(old(db.table), db.clock, token, change,
        if old(db.table).Some? && old(db.table).value.job.fallbackTask.Some? then AlreadyThere else Mismatch)
    {
      change := Update((j: Job) => j.(fallbackTask := Some(task)),
        (j: Job) => && j.status == FallbackRunning && j.nextAction == Some(RunFallback) && j.payload.None?
                    && j.fallbackTask.None? && (j.taskUuid.None? || j.taskUuid.value != task),
        (j: Job) => if j.fallbackTask.Some? then AlreadyThere else Mismatch, Some(token), false);
    }

    method RecordFallbackImageKey(token: Token, key: Key) returns (change: StateChange)
      modifies db`table
      ensures Called(StageCall(token, RecordFallbackImage(key)), old(db.table), db.table, db.clock, db.horizon, change)
      ensures change.reason == BadArgument <==> !ValidKey(key)
      ensures ValidKey(key) ==>
        Explained(old(db.table), db.clock, token, change,
          if old(db.table).Some? && old(db.table).value.job.fallbackKey.Some? then AlreadyThere else Mismatch)
    {
      if !ValidKey(key) { return REJECTED; }
      change := Update((j: Job) => j.(fallbackKey := Some(key)),
        (j: Job) => && j.status == FallbackRunning && j.nextAction == Some(RunFallback) && j.payload.None?
                    && j.fallbackStartedAt.Some? && j.fallbackKey.None?,
        (j: Job) => if j.fallbackKey.Some? then AlreadyThere else Mismatch, Some(token), false);
    }

    method ClaimFallbackAttempt(token: Token) returns (change: StateChange)
      modifies db`table
      ensures Called(StageCall(token, ClaimFallback), old(db.table), db.table, db.clock, db.horizon, change)
    {
      hide ValidKey, WellFormed;
      change := Claim(token, (j: Job) => j.(fallbackAttempts := j.fallbackAttempts + 1),
        (j: Job) => && j.status == FallbackRunning && j.nextAction == Some(RunFallback)
                    && j.payload.None? && j.verified.None?,
        (j: Job) => j.fallbackAttempts, FALLBACK_LIMIT, (j: Job) => j.payload.Some?);
    }

    // ----- the result and its publication -----

    method SaveFinalResult(token: Token, p: Payload, key: Option<Key>) returns (change: StateChange)
      modifies db`table
      ensures Called(ResultCall(token, Save(p, key)), old(db.table), db.table, db.clock, db.horizon, change)
      ensures change.reason == BadArgument <==>
        !WellFormed(p) || key != ImageKeyOf(p) || (old(db.table).Some? && p.jobId != old(db.table).value.job.id)
      ensures change.reason != BadArgument ==>
        Explained(old(db.table), db.clock, token, change,
          if old(db.table).Some? && old(db.table).value.job.payload.Some? then AlreadyThere else Mismatch)
    {
      if !WellFormed(p) || key != ImageKeyOf(p) || (db.table.Some? && p.jobId != db.table.value.job.id) {
        return REJECTED;
      }
      change := Update((j: Job) => j.(payload := Some(p), resultImageKey := key, nextAction := Some(PublishResult)),
        (j: Job) => !Terminal(j) && j.payload.None?,
        (j: Job) => if j.payload.Some? then AlreadyThere else Mismatch, Some(token), false);
    }

    method ClaimResultMessageAttempt(token: Token) returns (change: StateChange)
      modifies db`table
      ensures Called(ResultCall(token, ClaimMessage), old(db.table), db.table, db.clock, db.horizon, change)
      ensures Explained(old(db.table), db.clock, token, change,
        if old(db.table).None? then NotFoundRow
        else if old(db.table).value.job.messageAttempts >= RESULT_MESSAGE_LIMIT then LimitReached
        else if old(db.table).value.job.messageStatus != Pending then AlreadyThere else Mismatch)
    {
      hide ValidKey, WellFormed;
      change := Claim(token, (j: Job) => j.(messageAttempts := j.messageAttempts + 1),
        (j: Job) => && !Terminal(j) && j.nextAction == Some(PublishResult) && j.payload.Some?
                    && j.messageStatus == Pending,
        (j: Job) => j.messageAttempts, RESULT_MESSAGE_LIMIT, (j: Job) => j.messageStatus != Pending);
    }

    method MarkResultPublished(token: Token, final: Status) returns (change: StateChange)
      modifies db`table
      ensures Called(ResultCall(token, MarkPublished(final)), old(db.table), db.table, db.clock, db.horizon, change)
    {
      if final != Completed && final != Failed { return REJECTED; }
      change := Update((j: Job) => j.(messageStatus := Published, status := final, nextAction := None, lease := None),
        (j: Job) => && !Terminal(j) && j.nextAction == Some(PublishResult) && j.payload.Some?
                    && j.messageStatus == Pending && j.messageAttempts >= 1 && StatusOf(j.payload.value) == final,
        (j: Job) => Mismatch, Some(token), false);
    }

    method MarkResultRetryExhausted(token: Token) returns (change: StateChange)
      modifies db`table
      ensures Called(ResultCall(token, MarkExhausted), old(db.table), db.table, db.clock, db.horizon, change)
    {
      change := Update((j: Job) => j.(messageStatus := RetryExhausted, lease := None),
        (j: Job) => && !Terminal(j) && j.nextAction == Some(PublishResult) && j.payload.Some?
                    && j.messageStatus == Pending && j.messageAttempts >= RESULT_MESSAGE_LIMIT,
        (j: Job) => Mismatch, Some(token), false);
    }
  }

  /** What a grant decision needs beyond the job's own row: whether a shared slot could be taken is an input. */
  class PrunaLimiter {
    const db: Database

    constructor (db: Database)
      ensures this.db == db
    {
      this.db := db;
    }

    method BeginFirstSubmission(token: Token, task: TaskId, slot: bool) returns (granted: bool)
      modifies db`table
      ensures old(db.table).None? ==> db.table == None && !granted
      ensures old(db.table).Some? ==>
        var c := BeginSubmission(token, task, slot);
        && db.table == Some(AttemptStep(c, old(db.table).value, db.clock, db.horizon))
        && granted == AttemptApplies(c, old(db.table).value, db.clock, db.horizon)
    {
      if db.table.None? { return false; }
      var t, now := db.table.value, db.clock;
      var j := t.job;
      if !LeaseValid(j, token, now) || j.submitStartedAt.Some? { return false; }
      if j.status != Received || j.nextAction != Some(SubmitPruna) || j.taskUuid != Some(task) { return false; }
      if !slot { return false; }
      // a clash on a unique key of the attempts table rolls the whole grant back
      if exists a <- t.attempts :: a.no == 1 || a.task == task { return false; }
      db.table := Some(Table(j.(submitStartedAt := Some(now), updatedAt := now),
                             t.attempts + [Attempt(1, task, now, None, None, None)]));
      granted := true;
    }

    method BeginRetrySubmission(token: Token, previous: TaskId, task: TaskId, slot: bool) returns (granted: bool)
      modifies db`table
      ensures old(db.table).None? ==> db.table == None && !granted
      ensures old(db.table).Some? ==>
        var c := BeginRetry(token, previous, task, slot);
        && db.table == Some(AttemptStep(c, old(db.table).value, db.clock, db.horizon))
        && granted == AttemptApplies(c, old(db.table).value, db.clock, db.horizon)
    {
      if db.table.None? { return false; }
      var t, now := db.table.value, db.clock;
      var j := t.job;
      if !LeaseValid(j, token, now) { return false; }
      if j.status != Received || j.nextAction != Some(SubmitPruna) || j.taskUuid != Some(previous)
         || j.submitStartedAt.None? || j.acceptedAt.Some? || j.payload.Some? || j.authHold.Some?
         || j.notAcceptedAt.None? || j.retryAt.None? {
        return false;
      }
      var i, made := Find(t.attempts, previous), MaxNo(t.attempts);
      if i == |t.attempts| || t.attempts[i].notAccepted.None? { return false; }
      if made >= PRUNA_SUBMIT_LIMIT { return false; }
      if j.retryAt.value > now { return false; }
      if !slot || exists a <- t.attempts :: a.task == task { return false; }
      db.table := Some(Table(j.(taskUuid := Some(task), submitStartedAt := Some(now), notAcceptedAt := None,
                                retryAt := None, updatedAt := now),
                             t.attempts + [Attempt(made + 1, task, now, None, None, None)]));
      granted := true;
    }

    /** busy: only a free slot is missing, and it is worth asking again. */
    method BeginFallbackGeneration(token: Token, task: TaskId, slot: bool) returns (granted: bool, busy: bool)
      modifies db`table
      ensures old(db.table).None? ==> db.table == None && !granted && !busy
      ensures old(db.table).Some? ==>
        var c := StageCall(token, BeginFallback(task, slot));
        && db.table == Some(Step(c, old(db.table).value, db.clock, db.horizon))
        && granted == Applies(c, old(db.table).value, db.clock, db.horizon)
        && busy ==
             (!slot && Applies(StageCall(token, BeginFallback(task, true)), old(db.table).value, db.clock, db.horizon))
    {
      granted, busy := false, false;
      if db.table.None? { return; }
      var t, now := db.table.value, db.clock;
      var j := t.job;
      if !LeaseValid(j, token, now) || j.fallbackStartedAt.Some? || j.fallbackAttempts >= FALLBACK_LIMIT { return; }
      if j.status != FallbackRunning || j.nextAction != Some(RunFallback) || j.payload.Some?
         || j.fallbackTask != Some(task) {
        return;
      }
      if !slot {
        busy := true;
        return;
      }
      db.table := Some(Table(j.(fallbackAttempts := j.fallbackAttempts + 1, fallbackStartedAt := Some(now),
                                updatedAt := now), t.attempts));
      granted := true;
    }

    method CancelUnsentSubmission(token: Token, task: TaskId) returns (undone: bool)
      modifies db`table
      ensures old(db.table).None? ==> db.table == None && !undone
      ensures old(db.table).Some? ==>
        var c := CancelUnsent(token, task);
        && db.table == Some(AttemptStep(c, old(db.table).value, db.clock, db.horizon))
        && undone == AttemptApplies(c, old(db.table).value, db.clock, db.horizon)
    {
      if db.table.None? { return false; }
      var t, now := db.table.value, db.clock;
      var j, previous := t.job, Previous(t.attempts, task);
      if j.taskUuid != Some(task) || j.status != Received || j.acceptedAt.Some? || j.submitStartedAt.None?
         || !LeaseValid(j, token, now) {
        return false;
      }
      if previous.None? {
        j := j.(submitStartedAt := None, updatedAt := now);
      } else {
        var p := previous.value;
        j := j.(taskUuid := Some(p.task), submitStartedAt := Some(p.startedAt),
                notAcceptedAt := if p.notAccepted.Some? then Some(p.notAccepted.value.at) else None,
                retryAt := Coalesce(p.nextAt, Some(now)), updatedAt := now);
      }
      db.table := Some(Table(j, Without(t.attempts, task)));
      undone := true;
    }
  }
}
