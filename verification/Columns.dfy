/**
 The row told column by column instead of method by method: which calls leave which value, and where every value on a
 row comes from.
 */
module Columns {
  import opened Basics
  import opened Jobs
  import opened Transitions
  import opened RowInvariant

  /** Something a row, or one of its attempts, may say. */
  datatype Fact =
    | TaskKnown(task: TaskId)
    | StartKnown(at: Time)
    | Planned(key: Key, ai: bool)
    | Accepted(at: Time)
    | Url(url: string)
    | Uuid(uuid: nat)
    | Image(key: Key, at: Time)
    | FallbackTask(task: TaskId)
    | FallbackStart(at: Time)
    | FallbackImage(key: Key)
    | Hold(task: TaskId, reason: string, at: Time)
    | Result(payload: Payload)
    | Leased(token: Token, until: Time)
    | Reached(status: Status)
    | Message(messageStatus: MessageStatus)

  predicate Says(t: Table, f: Fact) {
    var j := t.job;
    match f
    case TaskKnown(task) => j.taskUuid == Some(task) || exists a <- t.attempts :: a.task == task
    case StartKnown(at) => j.submitStartedAt == Some(at) || exists a <- t.attempts :: a.startedAt == at
    case Planned(key, ai) => j.asyncImageKey == Some(key) && j.aiStores == ai
    case Accepted(at) => j.acceptedAt == Some(at)
    case Url(url) => j.imageUrl == Some(url)
    case Uuid(uuid) => j.imageUuid == Some(uuid)
    case Image(key, at) => j.verified == Some(Verified(key, at))
    case FallbackTask(task) => j.fallbackTask == Some(task)
    case FallbackStart(at) => j.fallbackStartedAt == Some(at)
    case FallbackImage(key) => j.fallbackKey == Some(key)
    case Hold(task, reason, at) => j.authHold == Some(AuthHold(task, reason, at))
    case Result(p) => j.payload == Some(p)
    case Leased(token, until) => j.lease == Some(Lease(token, until))
    case Reached(status) => j.status == status
    case Message(status) => j.messageStatus == status
  }

  /** The calls that make a row say so, with the arguments and at the instant they were made. */
  predicate Makes(c: Command, at: Time, f: Fact) {
    match f
    case TaskKnown(task) =>
      || (c.SubmitCall? && c.submit.Prepare? && c.submit.task == task)
      || (c.AttemptCall? && c.attempt.BeginRetry? && c.attempt.task == task)
    case StartKnown(start) =>
      at == start && ((c.SubmitCall? && c.submit.MarkStarted?)
                      || (c.AttemptCall? && (c.attempt.BeginSubmission? || c.attempt.BeginRetry?)))
    case Planned(key, ai) => c.SubmitCall? && c.submit.Prepare? && c.submit.key == key && c.submit.ai == ai
    case Accepted(accepted) =>
      at == accepted && ((c.SubmitCall? && c.submit.RunwareAccepted?)
                         || (c.EventCall? && !c.event.HoldForAuth? && !c.event.FillImageRef?))
    case Url(url) => c.EventCall? && (c.event.Succeeded? || c.event.FillImageRef?) && c.event.url == Some(url)
    case Uuid(uuid) => c.EventCall? && (c.event.Succeeded? || c.event.FillImageRef?) && c.event.uuid == Some(uuid)
    case Image(key, verified) => at == verified && c.StageCall? && c.stage == RecordVerified(key)
    case FallbackTask(task) => c.StageCall? && c.stage == PrepareFallback(task)
    case FallbackStart(start) => at == start && c.StageCall? && c.stage.BeginFallback?
    case FallbackImage(key) => c.StageCall? && c.stage == RecordFallbackImage(key)
    case Hold(task, reason, held) => at == held && c == EventCall(task, HoldForAuth(reason))
    case Result(p) =>
      || (c.ResultCall? && c.result.Save? && c.result.payload == p)
      || (c.EventCall? && c.event == FailedFinal(p))
      || (c.AttemptCall? && c.attempt.NotAcceptedReport? && IsRejection(p))
    case Leased(token, until) =>
      c.LeaseCall? && !c.lease.Release? && c.lease.token == token && at + c.lease.duration == until
    case Reached(Received) => false
    case Reached(WaitingPruna) =>
      (c.SubmitCall? && c.submit.RunwareAccepted?) || (c.EventCall? && c.event.SubmissionAccepted?)
    case Reached(Postprocessing) => c.EventCall? && c.event.Succeeded?
    case Reached(FallbackRunning) =>
      (c.EventCall? && c.event.FailedRecoverable?) || (c.StageCall? && c.stage == MoveToFallback(NotFound))
    case Reached(final) => c.ResultCall? && c.result == MarkPublished(final)
    case Message(Pending) => false
    case Message(Published) => c.ResultCall? && c.result.MarkPublished?
    case Message(RetryExhausted) => c.ResultCall? && c.result.MarkExhausted?
  }

  /** What a job is told whose fourth attempt was not accepted either. */
  predicate IsRejection(p: Payload) {
    p.FailedResult? && p.code == "FITTING_SUBMISSION_REJECTED" && p.message == "이미지 생성 요청이 접수되지 않았습니다."
  }

  // ----- one step -----

  lemma LeaseMakes(c: LeaseCommand, j: Job, attempts: seq<Attempt>, now: Time, f: Fact)
    requires LeaseGuard(c, j, now)
    requires Says(Table(LeaseEffect(c, j, now).(updatedAt := now), attempts), f) && !Says(Table(j, attempts), f)
    ensures Makes(LeaseCall(c), now, f)
  {}

  lemma SubmitMakes(c: SubmitCommand, token: Token, j: Job, attempts: seq<Attempt>, now: Time, f: Fact)
    requires SubmitGuard(c, j)
    requires Says(Table(SubmitEffect(c, j, now).(updatedAt := now), attempts), f) && !Says(Table(j, attempts), f)
    ensures Makes(SubmitCall(token, c), now, f)
  {}

  lemma EventMakes(c: EventCommand, task: TaskId, j: Job, attempts: seq<Attempt>, now: Time, f: Fact)
    requires EventAllowed(j, task) && EventGuard(c, j)
    requires Says(Table(Stamped(c, EventEffect(c, j, task, now), now), attempts), f) && !Says(Table(j, attempts), f)
    ensures Makes(EventCall(task, c), now, f)
  {}

  lemma StageMakes(c: StageCommand, token: Token, j: Job, attempts: seq<Attempt>, now: Time, f: Fact)
    requires StageGuard(c, j)
    requires Says(Table(StageEffect(c, j, now).(updatedAt := now), attempts), f) && !Says(Table(j, attempts), f)
    ensures Makes(StageCall(token, c), now, f)
  {}

  lemma ResultMakes(c: ResultCommand, token: Token, j: Job, attempts: seq<Attempt>, now: Time, f: Fact)
    requires ResultGuard(c, j)
    requires Says(Table(ResultEffect(c, j).(updatedAt := now), attempts), f) && !Says(Table(j, attempts), f)
    ensures Makes(ResultCall(token, c), now, f)
  {}

  /** The attempts a report works on say nothing new. */
  lemma KnownSaysNothingNew(t: Table, task: TaskId, f: Fact)
    requires t.job.taskUuid == Some(task) && t.job.submitStartedAt.Some?
    requires Says(Table(t.job, KnownAttempts(t, task)), f)
    ensures Says(t, f)
  {}

  lemma JudgedMakes(j: Job, attempts: seq<Attempt>, i: nat, c: AttemptCommand, now: Time, horizon: Time, f: Fact)
    requires i < |attempts| && c.NotAcceptedReport?
    requires var judged := Judged(j, attempts, i, c.code, c.source, c.retryAfter, c.unrepresentable, now, horizon);
             Says(judged.0, f) && !Says(Table(j, attempts), f)
    ensures var judged := Judged(j, attempts, i, c.code, c.source, c.retryAfter, c.unrepresentable, now, horizon);
            judged.1.Exhausted? && Makes(AttemptCall(c), now, f)
  {
    hide Verdict, RetryTime;
    var judged := Judged(j, attempts, i, c.code, c.source, c.retryAfter, c.unrepresentable, now, horizon).0;
    assert forall a <- judged.attempts :: exists b <- attempts :: a.task == b.task && a.startedAt == b.startedAt by {
      forall a <- judged.attempts
        ensures exists b <- attempts :: a.task == b.task && a.startedAt == b.startedAt
      {
        var k :| 0 <= k < |judged.attempts| && judged.attempts[k] == a;
        assert attempts[k] in attempts && attempts[k].task == a.task && attempts[k].startedAt == a.startedAt;
      }
    }
  }

  lemma ReportMakes(t: Table, c: AttemptCommand, now: Time, horizon: Time, f: Fact)
    requires c.NotAcceptedReport? && Says(AttemptStep(c, t, now, horizon), f) && !Says(t, f)
    ensures AttemptApplies(c, t, now, horizon) && Makes(AttemptCall(c), now, f)
  {
    hide Says, Makes, Judged, KnownAttempts;
    if t.job.taskUuid == Some(c.task) && t.job.submitStartedAt.Some? {
      var attempts := KnownAttempts(t, c.task);
      var i := Find(attempts, c.task);
      if Says(Table(t.job, attempts), f) { KnownSaysNothingNew(t, c.task, f); }
      if i < |attempts| { JudgedMakes(t.job, attempts, i, c, now, horizon, f); }
    }
  }

  lemma ContradictionMakesNothing(t: Table, task: TaskId, reason: string, now: Time, f: Fact)
    requires Says(ContradictionStep(t, task, reason, now), f)
    ensures Says(t, f)
  {
    var t' := ContradictionStep(t, task, reason, now);
    forall a <- t'.attempts
      ensures exists b <- t.attempts :: a.task == b.task && a.startedAt == b.startedAt
    {
      var k :| 0 <= k < |t'.attempts| && t'.attempts[k] == a;
      assert t.attempts[k] in t.attempts && t.attempts[k].task == a.task && t.attempts[k].startedAt == a.startedAt;
    }
  }

  lemma {:induction false} WithoutIsPart(attempts: seq<Attempt>, task: TaskId)
    ensures forall a <- Without(attempts, task) :: a in attempts
  {
    if attempts != [] { WithoutIsPart(attempts[1..], task); }
  }

  lemma CancelMakesNothing(t: Table, task: TaskId, now: Time, f: Fact)
    requires t.job.taskUuid == Some(task) && Says(CancelStep(t, task, now), f)
    ensures Says(t, f)
  {
    WithoutIsPart(t.attempts, task);
    hide Without;
  }

  lemma AttemptMakes(c: AttemptCommand, t: Table, now: Time, horizon: Time, f: Fact)
    requires Says(AttemptStep(c, t, now, horizon), f) && !Says(t, f)
    ensures AttemptApplies(c, t, now, horizon) && Makes(AttemptCall(c), now, f)
  {
    match c
    case NotAcceptedReport(_, _, _, _, _) => ReportMakes(t, c, now, horizon, f);
    case Contradiction(task, reason) => ContradictionMakesNothing(t, task, reason, now, f);
    case CancelUnsent(token, task) =>
      hide Says, CancelStep;
      if CancelAllowed(t, token, task, now) { CancelMakesNothing(t, task, now, f); }
    case BeginSubmission(token, task, slot) =>
    case BeginRetry(token, previous, task, slot) =>
  }

  /** A step makes a row say something new only by an applied call that carries it. */
  lemma StepMakes(c: Command, t: Table, now: Time, horizon: Time, f: Fact)
    requires Says(Step(c, t, now, horizon), f) && !Says(t, f)
    ensures Applies(c, t, now, horizon) && Makes(c, now, f)
  {
    hide Says, Makes, AttemptStep, AttemptApplies, LeaseEffect, SubmitEffect, EventEffect, StageEffect, ResultEffect;
    hide LeaseGuard, SubmitGuard, EventGuard, StageGuard, ResultGuard, EventAllowed, LeaseValid;
    match c
    case LeaseCall(l) => LeaseMakes(l, t.job, t.attempts, now, f);
    case SubmitCall(token, s) => SubmitMakes(s, token, t.job, t.attempts, now, f);
    case EventCall(task, e) => EventMakes(e, task, t.job, t.attempts, now, f);
    case StageCall(token, s) => StageMakes(s, token, t.job, t.attempts, now, f);
    case ResultCall(token, r) => ResultMakes(r, token, t.job, t.attempts, now, f);
    case AttemptCall(a) => AttemptMakes(a, t, now, horizon, f);
  }

  // ----- whole runs -----

  /** What a new job's row says from the start. */
  predicate Initial(f: Fact) { f == Reached(Received) || f == Message(Pending) }

  ghost predicate MadeBy(t: Table, calls: seq<Call>, i: nat, horizon: Time, f: Fact)
    requires i < |calls|
  {
    Applies(calls[i].command, Run(t, calls[..i], horizon), calls[i].at, horizon)
    && Makes(calls[i].command, calls[i].at, f)
  }

  /** Nothing is on a row that no call has put there: every value of every reachable row was carried by a call that
      applied, or is what the row was created with. */
  lemma {:induction false} EveryValueHasAnOrigin(id: int, fingerprint: string, start: Time, calls: seq<Call>,
                                                 horizon: Time, f: Fact)
    requires Says(Run(Created(id, fingerprint, start), calls, horizon), f)
    ensures Initial(f)
            || exists i :: 0 <= i < |calls| && MadeBy(Created(id, fingerprint, start), calls, i, horizon, f)
    decreases |calls|
  {
    hide Applies, Step, Makes;
    var t := Created(id, fingerprint, start);
    if calls == [] {
    } else {
      var n := |calls| - 1;
      var before := Run(t, calls[..n], horizon);
      hide Says;
      if Says(before, f) {
        EveryValueHasAnOrigin(id, fingerprint, start, calls[..n], horizon, f);
        if !Initial(f) {
          var i :| 0 <= i < n && MadeBy(t, calls[..n], i, horizon, f);
          assert calls[..n][..i] == calls[..i];
          assert MadeBy(t, calls, i, horizon, f);
        }
      } else {
        StepMakes(calls[n].command, before, calls[n].at, horizon, f);
        assert MadeBy(t, calls, n, horizon, f);
      }
    }
  }

  // ----- and the other way round -----

  /** Where a call that carries a value may find another one there already, or is not yet the last of its kind. */
  predicate Free(c: Command, t: Table, now: Time, horizon: Time, f: Fact) {
    match f
    case Accepted(_) => t.job.acceptedAt.None?
    case Reached(WaitingPruna) => At(t.job, Received, SubmitPruna)
    case Result(p) =>
      c.AttemptCall? && c.attempt.NotAcceptedReport? ==>
        && p.jobId == t.job.id && t.job.taskUuid == Some(c.attempt.task) && t.job.submitStartedAt.Some?
        && Find(t.attempts, c.attempt.task) == 3 < |t.attempts| && t.attempts[3].no == 4
    case _ => true
  }

  lemma RowLeaves(c: Command, t: Table, now: Time, horizon: Time, f: Fact)
    requires !c.AttemptCall? && Applies(c, t, now, horizon) && Makes(c, now, f) && Free(c, t, now, horizon, f)
    ensures Says(Table(RowStep(c, t.job, now), t.attempts), f)
  {
    match c
    case LeaseCall(_) =>
    case SubmitCall(_, _) =>
    case EventCall(_, _) =>
    case StageCall(_, _) =>
    case ResultCall(_, _) =>
  }

  lemma AttemptLeaves(c: AttemptCommand, t: Table, now: Time, horizon: Time, f: Fact)
    requires AttemptApplies(c, t, now, horizon) && Makes(AttemptCall(c), now, f)
    requires Free(AttemptCall(c), t, now, horizon, f)
    ensures Says(AttemptStep(c, t, now, horizon), f)
  {}

  /** An applied call leaves what it carries on the row. */
  lemma AppliedCallsLeave(c: Command, t: Table, now: Time, horizon: Time, f: Fact)
    requires Applies(c, t, now, horizon) && Makes(c, now, f) && Free(c, t, now, horizon, f)
    ensures Says(Step(c, t, now, horizon), f)
  {
    hide Makes, Says, Free, RowStep, AttemptStep;
    if c.AttemptCall? {
      AttemptLeaves(c.attempt, t, now, horizon, f);
    } else {
      RowLeaves(c, t, now, horizon, f);
    }
  }

  /** A success takes over exactly the references the event carries, one, both or none. */
  lemma SuccessRefs(task: TaskId, url: Option<string>, uuid: Option<nat>, t: Table, now: Time, horizon: Time)
    requires Applies(EventCall(task, Succeeded(url, uuid)), t, now, horizon)
    ensures var j' := Step(EventCall(task, Succeeded(url, uuid)), t, now, horizon).job;
            && j'.imageUrl == url && j'.imageUuid == uuid
            && j'.acceptedAt == Some(if t.job.acceptedAt.Some? then t.job.acceptedAt.value else now)
            && At(j', Postprocessing, Postprocess) && j'.updatedAt == now
            // and leaves all other columns alone
            && j' == t.job.(imageUrl := j'.imageUrl, imageUuid := j'.imageUuid, acceptedAt := j'.acceptedAt,
                            status := j'.status, nextAction := j'.nextAction, updatedAt := j'.updatedAt)
  {}

  /** The time of the last update is that of the last applied call, image references filled in later aside. */
  lemma AppliedCallsStamp(c: Command, t: Table, now: Time, horizon: Time)
    requires Applies(c, t, now, horizon) && !c.AttemptCall?
    ensures Step(c, t, now, horizon).job.updatedAt
         == if c.EventCall? && c.event.FillImageRef? then t.job.updatedAt else now
  {}
}

/** How much of each WHERE clause is left to decide on the rows a job can reach. */
module Guards {
  import opened Basics
  import opened Jobs
  import opened Transitions
  import opened RowInvariant

  predicate For(j: Job, action: NextAction) { j.nextAction == Some(action) }

  lemma LeaseCallsExactly(t: Table, token: Token, action: NextAction, duration: int, now: Time, horizon: Time)
    requires Inv(t)
    ensures Applies(LeaseCall(Acquire(token, action, duration)), t, now, horizon) <==>
              For(t.job, action) && LeaseFree(t.job, now) && 0 < duration <= 3600 * SECOND
    ensures Applies(LeaseCall(Renew(token, duration)), t, now, horizon) <==>
              LeaseValid(t.job, token, now) && 0 < duration <= 3600 * SECOND
    ensures Applies(LeaseCall(Release(token)), t, now, horizon) <==> LeaseValid(t.job, token, now)
  {}

  lemma SubmitCallsExactly(t: Table, token: Token, task: TaskId, key: Key, ai: bool, now: Time, horizon: Time)
    requires Inv(t)
    ensures Applies(SubmitCall(token, Prepare(task, key, ai)), t, now, horizon) <==>
              LeaseValid(t.job, token, now) && For(t.job, SubmitPruna) && t.job.taskUuid.None? && ValidKey(key)
    ensures Applies(SubmitCall(token, MarkStarted), t, now, horizon) <==>
              && LeaseValid(t.job, token, now) && For(t.job, SubmitPruna)
              && t.job.taskUuid.Some? && t.job.submitStartedAt.None?
    ensures Applies(SubmitCall(token, RunwareAccepted(task)), t, now, horizon) <==>
              LeaseValid(t.job, token, now) && t.job.taskUuid == Some(task) && t.job.submitStartedAt.Some?
  {}

  predicate Awaited(j: Job, task: TaskId) { j.taskUuid == Some(task) && j.submitStartedAt.Some? }

  predicate NothingDecided(j: Job) { j.payload.None? && Rank(j.status) <= 1 }

  lemma EventCallsExactly(t: Table, task: TaskId, reason: string, url: Option<string>, uuid: Option<nat>, p: Payload,
                          now: Time, horizon: Time)
    requires Inv(t)
    ensures Applies(EventCall(task, SubmissionAccepted), t, now, horizon) <==>
              Awaited(t.job, task) && t.job.messageStatus != Published
    ensures Applies(EventCall(task, HoldForAuth(reason)), t, now, horizon) <==>
              Awaited(t.job, task) && NothingDecided(t.job) && t.job.authHold.None?
    ensures Applies(EventCall(task, Succeeded(url, uuid)), t, now, horizon) <==>
              Awaited(t.job, task) && NothingDecided(t.job)
    ensures Applies(EventCall(task, FailedRecoverable), t, now, horizon) <==>
              Awaited(t.job, task) && NothingDecided(t.job)
    ensures Applies(EventCall(task, FailedFinal(p)), t, now, horizon) <==>
              && Awaited(t.job, task) && NothingDecided(t.job)
              && p.FailedResult? && p.jobId == t.job.id && !Blank(p.code) && !Blank(p.message)
  {}

  lemma ImageCallsExactly(t: Table, token: Token, key: Key, check: S3State, now: Time, horizon: Time)
    requires Inv(t)
    ensures Applies(StageCall(token, ClaimS3Check), t, now, horizon) <==>
              LeaseValid(t.job, token, now) && For(t.job, Postprocess) && t.job.verified.None? && t.job.s3Attempts < 2
    ensures Applies(StageCall(token, RecordVerified(key)), t, now, horizon) <==>
              LeaseValid(t.job, token, now) && For(t.job, Postprocess) && t.job.verified.None? && ValidKey(key)
    ensures Applies(StageCall(token, MoveToFallback(check)), t, now, horizon) <==>
              && LeaseValid(t.job, token, now) && For(t.job, Postprocess) && t.job.verified.None?
              && t.job.s3Attempts == 2 && check == NotFound
    ensures Applies(StageCall(token, ClaimLlm), t, now, horizon) <==>
              && LeaseValid(t.job, token, now) && t.job.payload.None? && t.job.llmAttempts < 4
              && (t.job.verified.Some? || t.job.fallbackKey.Some?)
  {}

  lemma FallbackCallsExactly(t: Table, token: Token, task: TaskId, key: Key, slot: bool, now: Time, horizon: Time)
    requires Inv(t)
    ensures Applies(StageCall(token, PrepareFallback(task)), t, now, horizon) <==>
              && LeaseValid(t.job, token, now) && For(t.job, RunFallback)
              && t.job.fallbackTask.None? && t.job.taskUuid != Some(task)
    ensures Applies(StageCall(token, BeginFallback(task, slot)), t, now, horizon) <==>
              && slot && LeaseValid(t.job, token, now) && For(t.job, RunFallback)
              && t.job.fallbackTask == Some(task) && t.job.fallbackAttempts == 0
    ensures Applies(StageCall(token, ClaimFallback), t, now, horizon) <==>
              LeaseValid(t.job, token, now) && For(t.job, RunFallback) && t.job.fallbackAttempts == 0
    ensures Applies(StageCall(token, RecordFallbackImage(key)), t, now, horizon) <==>
              && LeaseValid(t.job, token, now) && For(t.job, RunFallback)
              && t.job.fallbackStartedAt.Some? && t.job.fallbackKey.None? && ValidKey(key)
  {}

  lemma ResultCallsExactly(t: Table, token: Token, p: Payload, key: Option<Key>, final: Status, now: Time,
                           horizon: Time)
    requires Inv(t)
    ensures Applies(ResultCall(token, Save(p, key)), t, now, horizon) <==>
              && LeaseValid(t.job, token, now) && t.job.payload.None? && p.jobId == t.job.id
              && match p
                 case CompletedResult(_, image, title, comment) =>
                   key == Some(image) && ValidKey(image) && !Blank(title) && !Blank(comment)
                 case FailedResult(_, code, message) => key == None && !Blank(code) && !Blank(message)
    ensures var sendable := t.job.payload.Some? && t.job.messageStatus == Pending;
            && (Applies(ResultCall(token, ClaimMessage), t, now, horizon) <==>
                  LeaseValid(t.job, token, now) && sendable && t.job.messageAttempts < 3)
            && (Applies(ResultCall(token, MarkPublished(final)), t, now, horizon) <==>
                  && LeaseValid(t.job, token, now) && sendable && t.job.messageAttempts > 0
                  && final == if t.job.payload.value.CompletedResult? then Completed else Failed)
            && (Applies(ResultCall(token, MarkExhausted), t, now, horizon) <==>
                  LeaseValid(t.job, token, now) && sendable && t.job.messageAttempts == 3)
  {}

  lemma FirstSubmissionExactly(t: Table, token: Token, task: TaskId, slot: bool, now: Time, horizon: Time)
    requires Inv(t)
    ensures Applies(AttemptCall(BeginSubmission(token, task, slot)), t, now, horizon) <==>
              && slot && LeaseValid(t.job, token, now) && For(t.job, SubmitPruna)
              && t.job.taskUuid == Some(task) && t.job.submitStartedAt.None?
  {
    hide ResultFits, OneImageSource, Keyed, Bounded;
  }

  lemma RetryExactly(t: Table, token: Token, previous: TaskId, task: TaskId, slot: bool, now: Time, horizon: Time)
    requires Inv(t)
    ensures Applies(AttemptCall(BeginRetry(token, previous, task, slot)), t, now, horizon) <==>
              && slot && LeaseValid(t.job, token, now) && For(t.job, SubmitPruna) && t.job.authHold.None?
              && t.job.taskUuid == Some(previous) && t.job.retryAt.Some? && t.job.retryAt.value <= now
              && |t.attempts| < 4 && forall a <- t.attempts :: a.task != task
  {
    hide ResultFits, OneImageSource, Keyed, Bounded;
    MaxNoIsLength(t.attempts);
    if t.attempts != [] { FindAt(t.attempts, |t.attempts| - 1); }
  }

  lemma UndoExactly(t: Table, token: Token, task: TaskId, now: Time, horizon: Time)
    requires Inv(t)
    ensures Applies(AttemptCall(CancelUnsent(token, task)), t, now, horizon) <==>
              && LeaseValid(t.job, token, now) && Awaited(t.job, task) && t.job.status == Received
              && t.job.acceptedAt.None?
  {
    hide Legal, Lined;
  }
}
