/** What holds of the row and its attempts in every run, and how they may change from one state to a later one. */
module RowInvariant {
  import opened Basics
  import opened Jobs
  import opened Transitions

  function Rank(s: Status): nat {
    match s
    case Received => 0
    case WaitingPruna => 1
    case Postprocessing => 2
    case FallbackRunning => 3
    case Completed => 4
    case Failed => 4
  }

  /** The legal combinations of status, next action, payload and message status. */
  predicate Shape(j: Job) {
    if Terminal(j) then
      && j.nextAction.None? && j.payload.Some? && j.status == StatusOf(j.payload.value)
      && j.messageStatus == Published && j.messageAttempts >= 1 && j.lease.None?
    else if j.nextAction == Some(PublishResult) then
      && j.payload.Some? && (j.messageStatus.Pending? || j.messageStatus.RetryExhausted?)
      && (j.messageStatus == RetryExhausted ==> j.messageAttempts == RESULT_MESSAGE_LIMIT)
    else
      && j.payload.None? && j.messageStatus == Pending && j.messageAttempts == 0
      && match j.status
         case Received => j.nextAction == Some(SubmitPruna) && j.acceptedAt.None?
         case WaitingPruna => j.nextAction.None? && j.acceptedAt.Some?
         case Postprocessing => j.nextAction == Some(Postprocess) && j.acceptedAt.Some?
         case _ => j.nextAction == Some(RunFallback) && j.acceptedAt.Some?
  }

  predicate NoFallback(j: Job) {
    j.fallbackTask.None? && j.fallbackStartedAt.None? && j.fallbackKey.None? && j.fallbackAttempts == 0
  }

  /** Where the result image may come from: a verified image excludes every trace of the fallback. */
  predicate OneImageSource(j: Job) {
    && (j.verified.Some? ==> NoFallback(j))
    && ((j.status.Received? || j.status.WaitingPruna? || j.status.Postprocessing?) ==> NoFallback(j))
    && ((j.status.Received? || j.status.WaitingPruna? || j.status.FallbackRunning?) ==> j.verified.None?)
    && (j.fallbackKey.Some? ==> j.fallbackStartedAt.Some?)
    && (j.fallbackStartedAt.Some? ==> j.fallbackTask.Some? && j.fallbackAttempts == FALLBACK_LIMIT)
  }

  predicate Recorded(j: Job, key: Key) {
    (j.verified.Some? && j.verified.value.key == key) || j.fallbackKey == Some(key)
  }

  /** A stored result names this job, and a success names an image the row itself records. */
  predicate ResultFits(j: Job) {
    match j.payload
    case None => j.resultImageKey.None?
    case Some(p) =>
      && p.jobId == j.id && WellFormed(p) && j.resultImageKey == ImageKeyOf(p)
      && (p.CompletedResult? ==> Recorded(j, p.imageKey))
  }

  predicate Bounded(j: Job) {
    && j.messageAttempts <= RESULT_MESSAGE_LIMIT && j.llmAttempts <= LLM_GENERATION_LIMIT
    && j.s3Attempts <= S3_CHECK_LIMIT && j.fallbackAttempts <= FALLBACK_LIMIT
    && (j.llmAttempts > 0 ==> j.verified.Some? || j.fallbackKey.Some?)
  }

  predicate Progress(j: Job) {
    && (j.taskUuid.Some? <==> j.asyncImageKey.Some?)
    && (j.submitStartedAt.Some? ==> j.taskUuid.Some?)
    && (j.acceptedAt.Some? ==> j.submitStartedAt.Some?)
    && (j.authHold.Some? ==> j.taskUuid.Some?)
    && (j.authHold.Some? && j.taskUuid == Some(j.authHold.value.task) ==> j.submitStartedAt.Some?)
    && ((j.status.WaitingPruna? || j.status.Postprocessing? || j.status.FallbackRunning?) ==> j.acceptedAt.Some?)
    && ((j.status.Received? || j.status.WaitingPruna?) ==>
          j.imageUrl.None? && j.imageUuid.None? && j.s3Attempts == 0 && j.llmAttempts == 0)
  }

  /** Every key on record is one that the object store takes. */
  predicate Keyed(j: Job) {
    && (j.asyncImageKey.Some? ==> ValidKey(j.asyncImageKey.value))
    && (j.verified.Some? ==> ValidKey(j.verified.value.key))
    && (j.fallbackKey.Some? ==> ValidKey(j.fallbackKey.value))
  }

  predicate Legal(j: Job) {
    Shape(j) && OneImageSource(j) && ResultFits(j) && Bounded(j) && Progress(j) && Keyed(j)
  }

  predicate LastAttempt(t: Table)
    requires t.attempts != []
  {
    var last, j := t.attempts[|t.attempts| - 1], t.job;
    && j.taskUuid == Some(last.task) && j.submitStartedAt.Some?
    && (j.notAcceptedAt.Some? <==> last.notAccepted.Some?)
    && (j.retryAt.Some? ==> last.notAccepted.Some? && j.retryAt == last.nextAt)
  }

  /** The attempts are numbered from 1, and every one but the last ended as confirmed "not accepted" with a schedule. */
  predicate Lined(t: Table) {
    && (forall i :: 0 <= i < |t.attempts| ==> t.attempts[i].no == i + 1)
    && (forall i, k :: 0 <= i < k < |t.attempts| ==> t.attempts[i].task != t.attempts[k].task)
    && (forall i :: 0 <= i < |t.attempts| - 1 ==> t.attempts[i].notAccepted.Some? && t.attempts[i].nextAt.Some?)
    && (if t.attempts == [] then t.job.notAcceptedAt.None? && t.job.retryAt.None? else LastAttempt(t))
  }

  predicate Inv(t: Table) { Legal(t.job) && Lined(t) }

  /** What the code promises of two calls the database cannot check by itself. */
  predicate Honest(c: Command, t: Table) {
    match c
    // a success names the image that was verified or stored for this job
    case ResultCall(_, Save(p, _)) => p.CompletedResult? ==> Recorded(t.job, p.imageKey)
    // only a request that certainly never left is undone, so nobody has reported on its task
    case AttemptCall(CancelUnsent(_, task)) =>
      var i := Find(t.attempts, task);
      && (i < |t.attempts| ==> t.attempts[i].notAccepted.None?)
      && (t.job.authHold.Some? ==> t.job.authHold.value.task != task)
    case _ => true
  }

  // ----- change over time ------------------------------------------------------------------

  predicate Kept<T(==)>(a: Option<T>, b: Option<T>) { a.Some? ==> b == a }

  /** b may be a later state of a. */
  predicate Evolves(a: Job, b: Job) {
    && b.id == a.id && b.fingerprint == a.fingerprint
    && Rank(a.status) <= Rank(b.status)
    && (a.nextAction != Some(SubmitPruna) ==> b.nextAction != Some(SubmitPruna))
    && Kept(a.payload, b.payload) && (a.payload.Some? ==> b.resultImageKey == a.resultImageKey)
    && Kept(a.verified, b.verified) && Kept(a.fallbackKey, b.fallbackKey) && Kept(a.fallbackTask, b.fallbackTask)
    && Kept(a.fallbackStartedAt, b.fallbackStartedAt) && Kept(a.acceptedAt, b.acceptedAt)
    && Kept(a.asyncImageKey, b.asyncImageKey) && (a.asyncImageKey.Some? ==> b.aiStores == a.aiStores)
    && Kept(a.imageUrl, b.imageUrl) && Kept(a.imageUuid, b.imageUuid) && Kept(a.authHold, b.authHold)
    && a.messageAttempts <= b.messageAttempts && a.llmAttempts <= b.llmAttempts
    && a.fallbackAttempts <= b.fallbackAttempts && a.s3Attempts <= b.s3Attempts
    && (a.messageStatus != Pending ==> b.messageStatus == a.messageStatus && b.messageAttempts == a.messageAttempts)
    && (Terminal(a) ==> b == a)
  }

  lemma EvolvesReflexive(a: Job)
    ensures Evolves(a, a)
  {}

  lemma EvolvesTransitive(a: Job, b: Job, c: Job)
    requires Evolves(a, b) && Evolves(b, c)
    ensures Evolves(a, c)
  {}

  // ----- preservation ----------------------------------------------------------------------

  predicate Advances(j: Job, j': Job) { Legal(j') && Evolves(j, j') }

  lemma LeaseAdvances(c: LeaseCommand, j: Job, now: Time)
    requires Legal(j) && LeaseGuard(c, j, now)
    ensures Advances(j, LeaseEffect(c, j, now).(updatedAt := now))
  {
    hide WellFormed, ValidKey;
  }

  lemma AcceptAdvances(j: Job, task: TaskId, now: Time)
    requires Legal(j) && EventAllowed(j, task)
    ensures Advances(j, Accept(j, now).(updatedAt := now))
  {
    if At(j, Received, SubmitPruna) {
      assert Shape(Accept(j, now));
    } else {
      assert Accept(j, now) == j.(acceptedAt := Coalesce(j.acceptedAt, Some(now)));
    }
  }

  lemma SubmitAdvances(c: SubmitCommand, j: Job, now: Time)
    requires Legal(j) && SubmitGuard(c, j)
    ensures Advances(j, SubmitEffect(c, j, now).(updatedAt := now))
  {
    if c.RunwareAccepted? { AcceptAdvances(j, c.task, now); }
  }

  lemma EventAdvances(c: EventCommand, j: Job, task: TaskId, now: Time)
    requires Legal(j) && EventAllowed(j, task) && EventGuard(c, j)
    ensures Advances(j, Stamped(c, EventEffect(c, j, task, now), now))
  {
    hide Blank, ValidKey;
    if c.SubmissionAccepted? { AcceptAdvances(j, task, now); }
  }

  lemma StageAdvances(c: StageCommand, j: Job, now: Time)
    requires Legal(j) && StageGuard(c, j)
    ensures Advances(j, StageEffect(c, j, now).(updatedAt := now))
  {
    hide WellFormed, ValidKey;
  }

  lemma SaveAdvances(p: Payload, key: Option<Key>, j: Job, now: Time)
    requires Legal(j) && ResultGuard(Save(p, key), j) && (p.CompletedResult? ==> Recorded(j, p.imageKey))
    ensures Advances(j, ResultEffect(Save(p, key), j).(updatedAt := now))
  {
    hide ValidKey, Blank;
  }

  lemma ResultAdvances(c: ResultCommand, j: Job, now: Time)
    requires Legal(j) && ResultGuard(c, j)
    requires c.Save? && c.payload.CompletedResult? ==> Recorded(j, c.payload.imageKey)
    ensures Advances(j, ResultEffect(c, j).(updatedAt := now))
  {
    hide WellFormed, ValidKey;
    if c.Save? { SaveAdvances(c.payload, c.imageKey, j, now); }
  }

  lemma RowStepAdvances(c: Command, t: Table, now: Time)
    requires Inv(t) && Honest(c, t) && !c.AttemptCall?
    ensures Advances(t.job, RowStep(c, t.job, now))
  {
    var j := t.job;
    if RowStep(c, j, now) == j {
    } else {
      match c
      case LeaseCall(l) => LeaseAdvances(l, j, now);
      case SubmitCall(_, s) => SubmitAdvances(s, j, now);
      case EventCall(task, e) => EventAdvances(e, j, task, now);
      case StageCall(_, s) => StageAdvances(s, j, now);
      case ResultCall(_, r) => ResultAdvances(r, j, now);
    }
  }

  // ----- the attempts table -----

  lemma FindAt(attempts: seq<Attempt>, i: nat)
    requires i < |attempts|
    requires forall a, b :: 0 <= a < b < |attempts| ==> attempts[a].task != attempts[b].task
    ensures Find(attempts, attempts[i].task) == i
  {
    var k := Find(attempts, attempts[i].task);
    assert k <= i;
  }

  lemma {:induction false} MaxNoIsLength(attempts: seq<Attempt>)
    requires forall i :: 0 <= i < |attempts| ==> attempts[i].no == i + 1
    ensures MaxNo(attempts) == |attempts|
  {
    if attempts != [] {
      assert attempts[|attempts| - 1].no <= MaxNo(attempts);
    }
  }

  lemma {:induction false} NumberedAt(attempts: seq<Attempt>, no: int)
    requires forall i :: 0 <= i < |attempts| ==> attempts[i].no == i + 1
    ensures Numbered(attempts, no) == if 1 <= no <= |attempts| then Some(attempts[no - 1]) else None
  {
    var found := Numbered(attempts, no);
    if 1 <= no <= |attempts| {
      assert attempts[no - 1] in attempts;
    }
  }

  lemma {:induction false} WithoutLast(attempts: seq<Attempt>, task: TaskId)
    requires attempts != [] && attempts[|attempts| - 1].task == task
    requires forall i :: 0 <= i < |attempts| - 1 ==> attempts[i].task != task
    ensures Without(attempts, task) == attempts[..|attempts| - 1]
  {
    if |attempts| > 1 {
      assert attempts[0].task != task;
      WithoutLast(attempts[1..], task);
      assert attempts[1..][..|attempts| - 2] == attempts[1..|attempts| - 1];
    } else {
      assert Without(attempts[1..], task) == [];
    }
  }

  /** Replacing the last attempt, and saying nothing wrong about it on the row, keeps the attempts lined up. */
  lemma LastReplaced(t: Table, a: Attempt, j: Job)
    requires Lined(t) && t.attempts != []
    requires var last := t.attempts[|t.attempts| - 1]; a.no == last.no && a.task == last.task
    requires j.taskUuid == t.job.taskUuid && j.submitStartedAt == t.job.submitStartedAt
    requires j.notAcceptedAt.Some? <==> a.notAccepted.Some?
    requires j.retryAt.Some? ==> a.notAccepted.Some? && j.retryAt == a.nextAt
    ensures Lined(Table(j, t.attempts[|t.attempts| - 1 := a]))
  {
    var after := t.attempts[|t.attempts| - 1 := a];
    assert after[|after| - 1] == a;
    assert forall i :: 0 <= i < |after| ==> after[i].task == t.attempts[i].task && after[i].no == t.attempts[i].no;
    assert forall i :: 0 <= i < |after| - 1 ==> after[i] == t.attempts[i];
  }

  lemma RecordOnRowAdvances(j: Job, a: Attempt, at: Option<Time>, now: Time)
    requires Legal(j) && Verdict(j, a) == Scheduled && j.submitStartedAt.Some?
    ensures Advances(j, RecordOnRow(j, a.no, at, now))
  {
    hide WellFormed, ValidKey;
    RejectedFits(j.id);
  }

  /** A report about the current attempt finds it last in the list. */
  lemma CurrentIsLast(t: Table, task: TaskId)
    requires Lined(t) && t.job.taskUuid == Some(task) && t.job.submitStartedAt.Some?
    ensures var w := KnownAttempts(t, task);
            w != [] && Find(w, task) == |w| - 1 && Lined(Table(t.job, w))
  {
    var w := KnownAttempts(t, task);
    FindAt(w, |w| - 1);
  }

  lemma ScheduledKeeps(t: Table, a: Attempt, code: string, source: Source, at: Option<Time>, now: Time)
    requires Inv(t) && t.attempts != [] && a == t.attempts[|t.attempts| - 1] && Verdict(t.job, a) == Scheduled
    requires t.job.submitStartedAt.Some?
    ensures var recorded := a.(notAccepted := Some(NotAccepted(code, source, now)), nextAt := at);
            var j' := RecordOnRow(t.job, a.no, at, now);
            Lined(Table(j', t.attempts[|t.attempts| - 1 := recorded])) && Advances(t.job, j')
  {
    RecordOnRowAdvances(t.job, a, at, now);
    LastReplaced(t, a.(notAccepted := Some(NotAccepted(code, source, now)), nextAt := at),
                 RecordOnRow(t.job, a.no, at, now));
  }

  lemma NotAcceptedKeeps(t: Table, task: TaskId, code: string, source: Source,
                         retryAfter: Option<nat>, unrepresentable: bool, now: Time, horizon: Time)
    requires Inv(t)
    ensures var t' := NotAcceptedStep(t, task, code, source, retryAfter, unrepresentable, now, horizon).0;
            Lined(t') && Advances(t.job, t'.job)
  {
    hide Legal, Evolves;
    var j := t.job;
    EvolvesReflexive(j);
    if j.taskUuid == Some(task) && j.submitStartedAt.Some? {
      CurrentIsLast(t, task);
      var w := Table(j, KnownAttempts(t, task));
      var a := w.attempts[|w.attempts| - 1];
      ghost var verdict := Verdict(j, a);
      if verdict == Scheduled {
        ScheduledKeeps(w, a, code, source, RetryTime(a.no, retryAfter, unrepresentable, now, horizon), now);
      } else if verdict == Contradicted {
        LastReplaced(w, MarkConflict(a, PROGRESS_CONFLICT, now), j);
      }
    }
  }

  lemma RejectedFits(id: int)
    ensures WellFormed(RejectedPayload(id))
  {
    assert !White(SUBMISSION_REJECTED_CODE[0]);
    assert !White(SUBMISSION_REJECTED_MESSAGE[0]);
    assert SUBMISSION_REJECTED_CODE[0] in SUBMISSION_REJECTED_CODE;
    assert SUBMISSION_REJECTED_MESSAGE[0] in SUBMISSION_REJECTED_MESSAGE;
  }

  /** Only the retry time moves on the row: the rest of it stays as legal as it was. */
  lemma RetryTimeAdvances(j: Job, at: Option<Time>, updatedAt: Time)
    requires Legal(j) && !Terminal(j)
    ensures Advances(j, j.(retryAt := at, updatedAt := updatedAt))
  {}

  lemma ContradictionKeeps(t: Table, task: TaskId, reason: string, now: Time)
    requires Inv(t)
    ensures var t' := ContradictionStep(t, task, reason, now); Lined(t') && Advances(t.job, t'.job)
  {
    hide Legal, Evolves;
    var t' := ContradictionStep(t, task, reason, now);
    EvolvesReflexive(t.job);
    if t'.job != t.job { RetryTimeAdvances(t.job, None, now); }
    if t' != t {
      var n := |t.attempts| - 1;
      assert forall k :: 0 <= k <= n ==>
        t'.attempts[k] == t.attempts[k].(conflict := t'.attempts[k].conflict);
    }
  }

  lemma BeginSubmissionKeeps(t: Table, token: Token, task: TaskId, slot: bool, now: Time)
    requires Inv(t)
    ensures var t' := AttemptStep(BeginSubmission(token, task, slot), t, now, 0);
            Lined(t') && Advances(t.job, t'.job)
  {
    assert BeginSubmissionAllowed(t, token, task, slot, now) ==> t.attempts == [];
  }

  /** The current task changes hands between attempts; nothing else of the row's progress depends on it. */
  lemma ResubmissionAdvances(j: Job, task: TaskId, startedAt: Time, notAcceptedAt: Option<Time>, at: Option<Time>,
                             now: Time)
    requires Legal(j) && j.status.Received? && j.acceptedAt.None? && j.taskUuid.Some?
    ensures Advances(j, j.(taskUuid := Some(task), submitStartedAt := Some(startedAt), notAcceptedAt := notAcceptedAt,
                           retryAt := at, updatedAt := now))
  {}

  /** A new attempt may follow a last one that is recorded as not accepted and was scheduled. */
  lemma Extended(t: Table, a: Attempt, j: Job)
    requires Lined(t) && t.attempts != []
    requires var last := t.attempts[|t.attempts| - 1]; last.notAccepted.Some? && last.nextAt.Some?
    requires a.no == |t.attempts| + 1 && a.notAccepted.None? && forall b <- t.attempts :: b.task != a.task
    requires j.taskUuid == Some(a.task) && j.submitStartedAt.Some? && j.notAcceptedAt.None? && j.retryAt.None?
    ensures Lined(Table(j, t.attempts + [a]))
  {
    forall i | 0 <= i < |t.attempts|
      ensures t.attempts[i].task != a.task
    {
      assert t.attempts[i] in t.attempts;
    }
  }

  /** The attempts before the last are themselves lined up, for a row that goes back to the one before. */
  lemma Shortened(t: Table, j: Job)
    requires Lined(t) && t.attempts != []
    requires var n := |t.attempts| - 1;
             if n == 0 then j.notAcceptedAt.None? && j.retryAt.None?
             else j.taskUuid == Some(t.attempts[n - 1].task) && j.submitStartedAt.Some?
                  && j.notAcceptedAt.Some? && j.retryAt == t.attempts[n - 1].nextAt
    ensures Lined(Table(j, t.attempts[..|t.attempts| - 1]))
  {}

  /** What a granted retry knows about the attempts so far. */
  lemma RetryFollowsLast(t: Table, token: Token, previous: TaskId, task: TaskId, slot: bool, now: Time)
    requires Lined(t) && BeginRetryAllowed(t, token, previous, task, slot, now)
    ensures t.attempts != [] && MaxNo(t.attempts) == |t.attempts| < PRUNA_SUBMIT_LIMIT
    ensures var last := t.attempts[|t.attempts| - 1]; last.notAccepted.Some? && last.nextAt.Some?
  {
    MaxNoIsLength(t.attempts);
  }

  lemma BeginRetryKeeps(t: Table, token: Token, previous: TaskId, task: TaskId, slot: bool, now: Time)
    requires Inv(t)
    ensures var t' := AttemptStep(BeginRetry(token, previous, task, slot), t, now, 0);
            Lined(t') && Advances(t.job, t'.job)
  {
    hide Legal, Evolves, Lined;
    EvolvesReflexive(t.job);
    if BeginRetryAllowed(t, token, previous, task, slot, now) {
      RetryFollowsLast(t, token, previous, task, slot, now);
      ResubmissionAdvances(t.job, task, now, None, None, now);
      Extended(t, Attempt(MaxNo(t.attempts) + 1, task, now, None, None, None),
               t.job.(taskUuid := Some(task), submitStartedAt := Some(now), notAcceptedAt := None, retryAt := None,
                      updatedAt := now));
    }
  }

  lemma FirstCancelAdvances(j: Job, now: Time)
    requires Legal(j) && j.status.Received? && j.acceptedAt.None?
    requires j.authHold.Some? ==> j.taskUuid != Some(j.authHold.value.task)
    ensures Advances(j, j.(submitStartedAt := None, updatedAt := now))
  {}

  lemma CancelKeeps(t: Table, token: Token, task: TaskId, now: Time)
    requires Inv(t) && Honest(AttemptCall(CancelUnsent(token, task)), t) && CancelAllowed(t, token, task, now)
    ensures var t' := CancelStep(t, task, now); Lined(t') && Advances(t.job, t'.job)
  {
    hide Legal, Evolves;
    var n := |t.attempts| - 1;
    if n < 0 {
      FirstCancelAdvances(t.job, now);
    } else {
      FindAt(t.attempts, n);
      NumberedAt(t.attempts, n);
      WithoutLast(t.attempts, task);
      if n == 0 {
        FirstCancelAdvances(t.job, now);
      } else {
        var p := t.attempts[n - 1];
        ResubmissionAdvances(t.job, p.task, p.startedAt, Some(p.notAccepted.value.at), p.nextAt, now);
      }
      Shortened(t, CancelStep(t, task, now).job);
    }
  }

  /** The submission record of a started job is left alone. */
  predicate SameSubmission(j: Job, j': Job) {
    && j'.notAcceptedAt == j.notAcceptedAt && j'.retryAt == j.retryAt
    && (j.submitStartedAt.Some? ==> j'.submitStartedAt == j.submitStartedAt && j'.taskUuid == j.taskUuid)
  }

  lemma LeaseKeepsSubmission(c: LeaseCommand, j: Job, now: Time)
    ensures SameSubmission(j, LeaseEffect(c, j, now))
  {}

  lemma SubmitKeepsSubmission(c: SubmitCommand, j: Job, now: Time)
    requires SubmitGuard(c, j)
    ensures SameSubmission(j, SubmitEffect(c, j, now))
  {}

  lemma EventKeepsSubmission(c: EventCommand, j: Job, task: TaskId, now: Time)
    ensures SameSubmission(j, EventEffect(c, j, task, now))
  {}

  lemma StageKeepsSubmission(c: StageCommand, j: Job, now: Time)
    ensures SameSubmission(j, StageEffect(c, j, now))
  {}

  lemma ResultKeepsSubmission(c: ResultCommand, j: Job)
    ensures SameSubmission(j, ResultEffect(c, j))
  {}

  lemma RowStepKeepsSubmission(c: Command, j: Job, now: Time)
    requires !c.AttemptCall?
    ensures SameSubmission(j, RowStep(c, j, now))
  {
    hide LeaseEffect, SubmitEffect, EventEffect, StageEffect, ResultEffect;
    hide LeaseGuard, SubmitGuard, EventGuard, StageGuard, ResultGuard, LeaseValid;
    match c
    case LeaseCall(l) => LeaseKeepsSubmission(l, j, now);
    case SubmitCall(_, s) => if SubmitGuard(s, j) { SubmitKeepsSubmission(s, j, now); }
    case EventCall(task, e) => EventKeepsSubmission(e, j, task, now);
    case StageCall(_, s) => StageKeepsSubmission(s, j, now);
    case ResultCall(_, r) => ResultKeepsSubmission(r, j);
  }

  lemma RowStepKeepsAttempts(c: Command, t: Table, now: Time)
    requires Lined(t) && !c.AttemptCall?
    ensures Lined(Table(RowStep(c, t.job, now), t.attempts))
  {
    hide RowStep;
    RowStepKeepsSubmission(c, t.job, now);
  }

  /** Every step of every actor keeps the invariant, and no step takes anything back. */
  lemma StepKeepsInvariant(c: Command, t: Table, now: Time, horizon: Time)
    requires Inv(t) && Honest(c, t)
    ensures Inv(Step(c, t, now, horizon)) && Evolves(t.job, Step(c, t, now, horizon).job)
  {
    hide Legal, Evolves, NotAcceptedStep, ContradictionStep, CancelStep, CancelAllowed;
    match c {
      case AttemptCall(a) =>
        match a {
          case NotAcceptedReport(task, code, source, retryAfter, unrepresentable) =>
            NotAcceptedKeeps(t, task, code, source, retryAfter, unrepresentable, now, horizon);
          case Contradiction(task, reason) => ContradictionKeeps(t, task, reason, now);
          case BeginSubmission(token, task, slot) => BeginSubmissionKeeps(t, token, task, slot, now);
          case BeginRetry(token, previous, task, slot) => BeginRetryKeeps(t, token, previous, task, slot, now);
          case CancelUnsent(token, task) =>
            EvolvesReflexive(t.job);
            if CancelAllowed(t, token, task, now) { CancelKeeps(t, token, task, now); }
        }
      case _ =>
        RowStepAdvances(c, t, now);
        RowStepKeepsAttempts(c, t, now);
    }
  }

  lemma InitInvariant(id: int, fingerprint: string, now: Time)
    ensures Inv(Table(NewJob(id, fingerprint, now), []))
  {}

  // ----- runs -----

  /** One call of a method, at the instant its statement ran. */
  datatype Call = Call(command: Command, at: Time)

  /** The row and its attempts after a run of calls by any of the actors, in the order their transactions committed. */
  function Run(t: Table, calls: seq<Call>, horizon: Time): Table {
    if calls == [] then t
    else
      var n := |calls| - 1;
      Step(calls[n].command, Run(t, calls[..n], horizon), calls[n].at, horizon)
  }

  /** The database clock never goes back, and every call is made as the code makes it. */
  predicate Lawful(t: Table, calls: seq<Call>, horizon: Time) {
    && (forall i, k :: 0 <= i < k < |calls| ==> calls[i].at <= calls[k].at)
    && (forall i :: 0 <= i < |calls| ==> Honest(calls[i].command, Run(t, calls[..i], horizon)))
  }

  lemma LawfulPrefix(t: Table, calls: seq<Call>, horizon: Time)
    requires Lawful(t, calls, horizon) && calls != []
    ensures var n := |calls| - 1;
            Lawful(t, calls[..n], horizon) && Honest(calls[n].command, Run(t, calls[..n], horizon))
  {
    hide Run, Honest;
    var n := |calls| - 1;
    assert forall i :: 0 <= i < n ==> calls[..n][..i] == calls[..i];
  }

  /** Every reachable row is legal, and nothing recorded on it is ever taken back. */
  lemma {:induction false} RunKeepsInvariant(t: Table, calls: seq<Call>, horizon: Time)
    requires Inv(t) && Lawful(t, calls, horizon)
    ensures Inv(Run(t, calls, horizon)) && Evolves(t.job, Run(t, calls, horizon).job)
    decreases |calls|
  {
    hide Inv, Evolves, Step, Honest;
    if calls == [] {
      EvolvesReflexive(t.job);
    } else {
      var n := |calls| - 1;
      LawfulPrefix(t, calls, horizon);
      RunKeepsInvariant(t, calls[..n], horizon);
      var before := Run(t, calls[..n], horizon);
      StepKeepsInvariant(calls[n].command, before, calls[n].at, horizon);
      EvolvesTransitive(t.job, before.job, Run(t, calls, horizon).job);
    }
  }

  lemma LawfulTo(t: Table, calls: seq<Call>, n: nat, horizon: Time)
    requires Lawful(t, calls, horizon) && n <= |calls|
    ensures Lawful(t, calls[..n], horizon)
  {
    hide Run, Honest;
    assert forall i :: 0 <= i < n ==> calls[..n][..i] == calls[..i];
  }

  lemma RunNext(t: Table, calls: seq<Call>, n: nat, horizon: Time)
    requires n < |calls|
    ensures Run(t, calls[..n + 1], horizon) == Step(calls[n].command, Run(t, calls[..n], horizon), calls[n].at, horizon)
  {
    hide Step;
    assert calls[..n + 1][..n] == calls[..n];
  }

  /** What is on record at one point of a run is still there at any later one. */
  lemma {:induction false} RunEvolves(t: Table, calls: seq<Call>, m: nat, n: nat, horizon: Time)
    requires Inv(t) && Lawful(t, calls, horizon) && m <= n <= |calls|
    ensures Evolves(Run(t, calls[..m], horizon).job, Run(t, calls[..n], horizon).job)
    decreases n
  {
    hide Inv, Evolves, Step, Run;
    var a := Run(t, calls[..m], horizon);
    if m == n {
      EvolvesReflexive(a.job);
    } else {
      RunEvolves(t, calls, m, n - 1, horizon);
      LawfulTo(t, calls, n - 1, horizon);
      RunKeepsInvariant(t, calls[..n - 1], horizon);
      var b := Run(t, calls[..n - 1], horizon);
      StepKeepsInvariant(calls[n - 1].command, b, calls[n - 1].at, horizon);
      RunNext(t, calls, n - 1, horizon);
      EvolvesTransitive(a.job, b.job, Run(t, calls[..n], horizon).job);
    }
  }

  /** A run may go on with any call that is made as the code makes it, no earlier than the last. */
  lemma LawfulMore(t: Table, calls: seq<Call>, call: Call, horizon: Time)
    requires Lawful(t, calls, horizon) && Honest(call.command, Run(t, calls, horizon))
    requires calls != [] ==> calls[|calls| - 1].at <= call.at
    ensures Lawful(t, calls + [call], horizon)
    ensures Run(t, calls + [call], horizon) == Step(call.command, Run(t, calls, horizon), call.at, horizon)
  {
    hide Step, Honest;
    var more := calls + [call];
    assert more[..|calls|] == calls;
    assert forall i :: 0 <= i < |calls| ==> more[..i] == calls[..i];
  }

  /** A new job's row and its attempts, of which there are none. */
  function Created(id: int, fingerprint: string, start: Time): Table { Table(NewJob(id, fingerprint, start), []) }

  /** How a job begins: a worker gets the lease for a minute, prepares task 1 and is granted its submission. */
  function FirstRun(): seq<Call> {
    [Call(LeaseCall(Acquire(1, SubmitPruna, 60 * SECOND)), 0), Call(SubmitCall(1, Prepare(1, "k", true)), 0),
     Call(AttemptCall(BeginSubmission(1, 1, true)), 0)]
  }

  function FirstSubmitted(): Table {
    Table(NewJob(7, "", 0).(lease := Some(Lease(1, 60 * SECOND)), taskUuid := Some(1), asyncImageKey := Some("k"),
                            aiStores := true, submitStartedAt := Some(0)),
          [Attempt(1, 1, 0, None, None, None)])
  }

  lemma FirstRunSubmits(horizon: Time)
    ensures Lawful(Created(7, "", 0), FirstRun(), horizon)
    ensures Run(Created(7, "", 0), FirstRun(), horizon) == FirstSubmitted()
  {
    hide Run, Lawful, ValidKey;
    var t, calls := Created(7, "", 0), FirstRun();
    PlainKey();
    NothingYet(t, horizon);
    LawfulMore(t, [], calls[0], horizon);
    assert [] + [calls[0]] == [calls[0]];
    LawfulMore(t, [calls[0]], calls[1], horizon);
    assert [calls[0]] + [calls[1]] == [calls[0], calls[1]];
    LawfulMore(t, [calls[0], calls[1]], calls[2], horizon);
    assert [calls[0], calls[1]] + [calls[2]] == calls;
  }

  lemma NothingYet(t: Table, horizon: Time)
    ensures Lawful(t, [], horizon) && Run(t, [], horizon) == t
  {}

  /** Where a job can stand in any run: the legal combinations, one source for its image, and a result that fits it. */
  lemma ReachableRows(id: int, fingerprint: string, start: Time, calls: seq<Call>, horizon: Time)
    requires Lawful(Table(NewJob(id, fingerprint, start), []), calls, horizon)
    ensures var j := Run(Table(NewJob(id, fingerprint, start), []), calls, horizon).job;
            && Shape(j)
            && !(j.verified.Some? && (j.fallbackAttempts > 0 || j.fallbackTask.Some? || j.fallbackKey.Some?))
            && (j.payload.Some? && j.payload.value.CompletedResult? ==>
                  if j.verified.Some? then j.payload.value.imageKey == j.verified.value.key
                  else j.fallbackKey == Some(j.payload.value.imageKey))
            && (j.fallbackKey.Some? ==> j.fallbackAttempts == FALLBACK_LIMIT)
  {
    InitInvariant(id, fingerprint, start);
    RunKeepsInvariant(Table(NewJob(id, fingerprint, start), []), calls, horizon);
  }
}
