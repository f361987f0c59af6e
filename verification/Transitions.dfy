/** What each repository method does to the row, as a guard and an effect per command. */
module Transitions {
  import opened Basics
  import opened Jobs

  datatype S3State = Exists | NotFound | AccessDenied | TransientError | S3Error

  datatype LeaseCommand =
    | Acquire(token: Token, action: NextAction, duration: int)
    | Renew(token: Token, duration: int)
    | Release(token: Token)

  /** Worker methods of the submission stage. */
  datatype SubmitCommand =
    | Prepare(task: TaskId, key: Key, ai: bool)
    | MarkStarted
    | RunwareAccepted(task: TaskId)

  /** External reports about the current task: no token, but a registered and started task. */
  datatype EventCommand =
    | SubmissionAccepted
    | HoldForAuth(reason: string)
    | Succeeded(url: Option<string>, uuid: Option<nat>)
    | FillImageRef(url: Option<string>, uuid: Option<nat>, confirmed: bool)
    | FailedRecoverable
    | FailedFinal(payload: Payload)

  /** Worker methods of post-processing and of the fallback. */
  datatype StageCommand =
    | ClaimS3Check
    | RecordVerified(key: Key)
    | ClaimLlm
    | MoveToFallback(finalCheck: S3State)
    | PrepareFallback(task: TaskId)
    | RecordFallbackImage(key: Key)
    | ClaimFallback
    | BeginFallback(task: TaskId, slot: bool)

  datatype ResultCommand =
    | Save(payload: Payload, imageKey: Option<Key>)
    | ClaimMessage
    | MarkPublished(final: Status)
    | MarkExhausted

  /** Methods that also read or write the attempts table. */
  datatype AttemptCommand =
    | NotAcceptedReport(task: TaskId, code: string, source: Source, retryAfter: Option<nat>, unrepresentable: bool)
    | Contradiction(task: TaskId, reason: string)
    | BeginSubmission(token: Token, task: TaskId, slot: bool)
    | BeginRetry(token: Token, previous: TaskId, task: TaskId, slot: bool)
    | CancelUnsent(token: Token, task: TaskId)

  /** A call of a state-changing method, with the arguments that decide its effect. */
  datatype Command =
    | LeaseCall(lease: LeaseCommand)
    | SubmitCall(token: Token, submit: SubmitCommand)
    | EventCall(task: TaskId, event: EventCommand)
    | StageCall(token: Token, stage: StageCommand)
    | ResultCall(token: Token, result: ResultCommand)
    | AttemptCall(attempt: AttemptCommand)

  /** The lease token the command presents, if it presents one. */
  function TokenOf(c: Command): Option<Token> {
    match c
    case LeaseCall(Acquire(_, _, _)) => None
    case LeaseCall(l) => Some(l.token)
    case EventCall(_, _) => None
    case AttemptCall(NotAcceptedReport(_, _, _, _, _)) => None
    case AttemptCall(Contradiction(_, _)) => None
    case AttemptCall(a) => Some(a.token)
    case SubmitCall(token, _) => Some(token)
    case StageCall(token, _) => Some(token)
    case ResultCall(token, _) => Some(token)
  }

  // ----- guards: the WHERE clauses, argument checks included (a rejected argument changes nothing) -----

  predicate At(j: Job, status: Status, action: NextAction) {
    j.status == status && j.nextAction == Some(action)
  }

  /** The condition all external-event methods share. */
  predicate EventAllowed(j: Job, task: TaskId) {
    j.taskUuid == Some(task) && j.submitStartedAt.Some? && !Terminal(j)
  }

  predicate Undecided(j: Job) { (j.status.Received? || j.status.WaitingPruna?) && j.payload.None? }

  predicate FailureAllowed(j: Job) {
    Undecided(j) && j.verified.None? && j.fallbackAttempts < FALLBACK_LIMIT
  }

  predicate FillAllowed(j: Job, url: Option<string>, uuid: Option<nat>, confirmed: bool) {
    && At(j, Postprocessing, Postprocess) && j.payload.None?
    && (j.imageUrl.None? || url.None? || j.imageUrl == url)
    && (j.imageUuid.None? || uuid.None? || j.imageUuid == uuid)
    && ((j.imageUrl.Some? && j.imageUrl == url) || (j.imageUuid.Some? && j.imageUuid == uuid)
        || (confirmed && j.aiStores))
    && ((j.imageUrl.None? && url.Some?) || (j.imageUuid.None? && uuid.Some?))
  }

  predicate PublishPending(j: Job) {
    !Terminal(j) && j.nextAction == Some(PublishResult) && j.payload.Some? && j.messageStatus == Pending
  }

  predicate LeaseGuard(c: LeaseCommand, j: Job, now: Time) {
    match c
    case Acquire(_, action, duration) =>
      0 < duration <= MAX_LEASE && !Terminal(j) && j.nextAction == Some(action) && LeaseFree(j, now)
    case Renew(token, duration) => 0 < duration <= MAX_LEASE && !Terminal(j) && LeaseValid(j, token, now)
    case Release(token) => LeaseValid(j, token, now)
  }

  predicate SubmitGuard(c: SubmitCommand, j: Job) {
    match c
    case Prepare(_, key, _) =>
      ValidKey(key) && At(j, Received, SubmitPruna) && j.taskUuid.None? && j.submitStartedAt.None?
    case MarkStarted => At(j, Received, SubmitPruna) && j.taskUuid.Some? && j.submitStartedAt.None?
    case RunwareAccepted(task) => EventAllowed(j, task)
  }

  predicate EventGuard(c: EventCommand, j: Job) {
    match c
    case SubmissionAccepted => true
    case HoldForAuth(_) =>
      Undecided(j) && (j.nextAction.None? || j.nextAction == Some(SubmitPruna)) && j.authHold.None?
    case Succeeded(_, _) => Undecided(j)
    case FillImageRef(url, uuid, confirmed) => FillAllowed(j, url, uuid, confirmed)
    case FailedRecoverable => FailureAllowed(j)
    case FailedFinal(p) => p.FailedResult? && WellFormed(p) && p.jobId == j.id && FailureAllowed(j)
  }

  predicate StageGuard(c: StageCommand, j: Job) {
    match c
    case ClaimS3Check =>
      && At(j, Postprocessing, Postprocess) && j.verified.None? && j.payload.None?
      && j.s3Attempts < S3_CHECK_LIMIT
    case RecordVerified(key) =>
      ValidKey(key) && At(j, Postprocessing, Postprocess) && j.verified.None? && j.payload.None?
    case ClaimLlm =>
      && j.payload.None? && j.llmAttempts < LLM_GENERATION_LIMIT
      && ((At(j, Postprocessing, Postprocess) && j.verified.Some?)
          || (At(j, FallbackRunning, RunFallback) && j.fallbackKey.Some?))
    case MoveToFallback(check) =>
      && check.NotFound? && At(j, Postprocessing, Postprocess) && j.s3Attempts >= S3_CHECK_LIMIT
      && j.payload.None? && j.verified.None? && j.fallbackAttempts < FALLBACK_LIMIT
    case PrepareFallback(task) =>
      At(j, FallbackRunning, RunFallback) && j.payload.None? && j.fallbackTask.None? && j.taskUuid != Some(task)
    case RecordFallbackImage(key) =>
      && ValidKey(key) && At(j, FallbackRunning, RunFallback) && j.payload.None? && j.fallbackStartedAt.Some?
      && j.fallbackKey.None?
    case ClaimFallback =>
      && At(j, FallbackRunning, RunFallback) && j.payload.None? && j.verified.None?
      && j.fallbackAttempts < FALLBACK_LIMIT
    case BeginFallback(task, slot) =>
      && slot && At(j, FallbackRunning, RunFallback) && j.payload.None? && j.fallbackTask == Some(task)
      && j.fallbackStartedAt.None? && j.fallbackAttempts < FALLBACK_LIMIT
  }

  predicate ResultGuard(c: ResultCommand, j: Job) {
    match c
    case Save(p, key) =>
      WellFormed(p) && p.jobId == j.id && key == ImageKeyOf(p) && !Terminal(j) && j.payload.None?
    case ClaimMessage => PublishPending(j) && j.messageAttempts < RESULT_MESSAGE_LIMIT
    case MarkPublished(final) =>
      PublishPending(j) && j.messageAttempts >= 1 && StatusOf(j.payload.value) == final
    case MarkExhausted => PublishPending(j) && j.messageAttempts >= RESULT_MESSAGE_LIMIT
  }

  // ----- effects: the SET clauses (every method but FillImageRef also stamps updatedAt) -----

  function LeaseEffect(c: LeaseCommand, j: Job, now: Time): Job {
    match c
    case Acquire(token, _, duration) => j.(lease := Some(Lease(token, now + duration)))
    case Renew(token, duration) => j.(lease := Some(Lease(token, now + duration)))
    case Release(_) => j.(lease := None)
  }

  /** The accepted-response update: only a job still waiting to be submitted moves on. */
  function Accept(j: Job, now: Time): Job {
    var accepted := j.(acceptedAt := Coalesce(j.acceptedAt, Some(now)));
    if At(j, Received, SubmitPruna) then accepted.(status := WaitingPruna, nextAction := None) else accepted
  }

  function SubmitEffect(c: SubmitCommand, j: Job, now: Time): Job {
    match c
    case Prepare(task, key, ai) => j.(taskUuid := Some(task), asyncImageKey := Some(key), aiStores := ai)
    case MarkStarted => j.(submitStartedAt := Some(now))
    case RunwareAccepted(_) => Accept(j, now)
  }

  function EventEffect(c: EventCommand, j: Job, task: TaskId, now: Time): Job {
    match c
    case SubmissionAccepted => Accept(j, now)
    case HoldForAuth(reason) => j.(authHold := Some(AuthHold(task, reason, now)))
    case Succeeded(url, uuid) =>
      j.(status := Postprocessing, nextAction := Some(Postprocess), acceptedAt := Coalesce(j.acceptedAt, Some(now)),
         imageUrl := url, imageUuid := uuid)
    case FillImageRef(url, uuid, _) =>
      j.(imageUrl := Coalesce(j.imageUrl, url), imageUuid := Coalesce(j.imageUuid, uuid))
    case FailedRecoverable =>
      j.(status := FallbackRunning, nextAction := Some(RunFallback), acceptedAt := Coalesce(j.acceptedAt, Some(now)))
    case FailedFinal(p) =>
      j.(payload := Some(p), nextAction := Some(PublishResult), acceptedAt := Coalesce(j.acceptedAt, Some(now)))
  }

  function StageEffect(c: StageCommand, j: Job, now: Time): Job {
    match c
    case ClaimS3Check => j.(s3Attempts := j.s3Attempts + 1)
    case RecordVerified(key) => j.(verified := Some(Verified(key, now)))
    case ClaimLlm => j.(llmAttempts := j.llmAttempts + 1)
    case MoveToFallback(_) => j.(status := FallbackRunning, nextAction := Some(RunFallback))
    case PrepareFallback(task) => j.(fallbackTask := Some(task))
    case RecordFallbackImage(key) => j.(fallbackKey := Some(key))
    case ClaimFallback => j.(fallbackAttempts := j.fallbackAttempts + 1)
    case BeginFallback(_, _) => j.(fallbackAttempts := j.fallbackAttempts + 1, fallbackStartedAt := Some(now))
  }

  function ResultEffect(c: ResultCommand, j: Job): Job {
    match c
    case Save(p, key) => j.(payload := Some(p), resultImageKey := key, nextAction := Some(PublishResult))
    case ClaimMessage => j.(messageAttempts := j.messageAttempts + 1)
    case MarkPublished(final) => j.(messageStatus := Published, status := final, nextAction := None, lease := None)
    case MarkExhausted => j.(messageStatus := RetryExhausted, lease := None)
  }

  function Stamped(c: EventCommand, j: Job, now: Time): Job {
    if c.FillImageRef? then j else j.(updatedAt := now)
  }

  // ----- the attempts table ------------------------------------------------------------------

  /** Position of the attempt made with this task, or |attempts| when there is none. */
  function Find(attempts: seq<Attempt>, task: TaskId): (i: nat)
    ensures i <= |attempts|
    ensures i < |attempts| ==> attempts[i].task == task
    ensures forall k :: 0 <= k < i ==> attempts[k].task != task
  {
    if attempts == [] then 0 else if attempts[0].task == task then 0 else 1 + Find(attempts[1..], task)
  }

  function MaxNo(attempts: seq<Attempt>): (m: nat)
    ensures m <= PRUNA_SUBMIT_LIMIT
    ensures forall a <- attempts :: a.no <= m
    ensures attempts != [] ==> exists a <- attempts :: a.no == m
  {
    if attempts == [] then 0
    else var m := MaxNo(attempts[1..]); if attempts[0].no > m then attempts[0].no else m
  }

  /** DELETE ... WHERE task_uuid = task. */
  function Without(attempts: seq<Attempt>, task: TaskId): seq<Attempt> {
    if attempts == [] then []
    else if attempts[0].task == task then Without(attempts[1..], task)
    else [attempts[0]] + Without(attempts[1..], task)
  }

  /** Wait after the given attempt: the server's own hint, or 10, 20 and 40 seconds. */
  function RetryDelay(no: int, retryAfter: Option<nat>): nat
    requires 1 <= no < PRUNA_SUBMIT_LIMIT
  {
    if retryAfter.Some? then retryAfter.value
    else if no == 1 then 10 * SECOND else if no == 2 then 20 * SECOND else 40 * SECOND
  }

  const PROGRESS_CONFLICT := "not_accepted_after_progress"

  function MarkConflict(a: Attempt, reason: string, now: Time): Attempt {
    a.(conflict := Coalesce(a.conflict, Some(Conflict(reason, now))))
  }

  function RejectedPayload(id: int): Payload {
    FailedResult(id, SUBMISSION_REJECTED_CODE, SUBMISSION_REJECTED_MESSAGE)
  }

  datatype NotAcceptedOutcome =
    | Scheduled | Exhausted | HeldBack | AlreadyRecorded | PastAttempt | Contradicted | StateMismatch | UnknownTask

  /** Whether a confirmed "not accepted" report on the current attempt is recorded, and if not, why. */
  function Verdict(j: Job, a: Attempt): NotAcceptedOutcome {
    if a.notAccepted.Some? then AlreadyRecorded
    else if Terminal(j) then StateMismatch
    else if j.acceptedAt.Some? || j.verified.Some? || j.status != Received then Contradicted
    else if j.nextAction != Some(SubmitPruna) || j.payload.Some? || j.authHold.Some? then StateMismatch
    else Scheduled
  }

  /** When the next attempt may be sent; none for the last attempt or a wait the database cannot represent. */
  function RetryTime(no: AttemptNo, retryAfter: Option<nat>, unrepresentable: bool, now: Time, horizon: Time)
    : Option<Time>
  {
    if no >= PRUNA_SUBMIT_LIMIT || unrepresentable || now + RetryDelay(no, retryAfter) > horizon then None
    else Some(now + RetryDelay(no, retryAfter))
  }

  function RecordOnRow(j: Job, no: AttemptNo, at: Option<Time>, now: Time): Job {
    var base := j.(notAcceptedAt := Some(now), retryAt := at, updatedAt := now);
    if no >= PRUNA_SUBMIT_LIMIT
    then base.(payload := Some(RejectedPayload(j.id)), nextAction := Some(PublishResult))
    else base
  }

  /** The attempts of a started job; one that predates the attempts table gets its first row here. */
  function KnownAttempts(t: Table, task: TaskId): seq<Attempt>
    requires t.job.submitStartedAt.Some?
  {
    if t.attempts == [] then [Attempt(1, task, t.job.submitStartedAt.value, None, None, None)] else t.attempts
  }

  /** What the report does to the attempt found at position i. */
  function Judged(j: Job, attempts: seq<Attempt>, i: nat, code: string, source: Source,
                  retryAfter: Option<nat>, unrepresentable: bool, now: Time, horizon: Time)
    : (Table, NotAcceptedOutcome)
    requires i < |attempts|
  {
    var a := attempts[i];
    match Verdict(j, a)
    case Scheduled =>
      var at := RetryTime(a.no, retryAfter, unrepresentable, now, horizon);
      var recorded := a.(notAccepted := Some(NotAccepted(code, source, now)), nextAt := at);
      (Table(RecordOnRow(j, a.no, at, now), attempts[i := recorded]),
       if a.no >= PRUNA_SUBMIT_LIMIT then Exhausted else if at.None? then HeldBack else Scheduled)
    case Contradicted => (Table(j, attempts[i := MarkConflict(a, PROGRESS_CONFLICT, now)]), Contradicted)
    case verdict => (Table(j, attempts), verdict)
  }

  /** The one transaction behind every confirmed "not accepted" report. */
  function NotAcceptedStep(t: Table, task: TaskId, code: string, source: Source,
                           retryAfter: Option<nat>, unrepresentable: bool, now: Time, horizon: Time)
    : (Table, NotAcceptedOutcome)
  {
    var j := t.job;
    if j.taskUuid != Some(task) then
      (t, if Find(t.attempts, task) < |t.attempts| then PastAttempt else UnknownTask)
    else if j.submitStartedAt.None? then (t, StateMismatch)
    else
      var attempts := KnownAttempts(t, task);
      var i := Find(attempts, task);
      if i == |attempts| then (t, StateMismatch)
      else Judged(j, attempts, i, code, source, retryAfter, unrepresentable, now, horizon)
  }

  function ContradictionStep(t: Table, task: TaskId, reason: string, now: Time): Table {
    var i := Find(t.attempts, task);
    if i == |t.attempts| || t.attempts[i].notAccepted.None? then t
    else
      var j := t.job;
      var held := j.retryAt.Some? && At(j, Received, SubmitPruna) && j.payload.None?;
      Table(if held then j.(retryAt := None, updatedAt := now) else j,
            t.attempts[i := MarkConflict(t.attempts[i], reason, now)])
  }

  predicate BeginSubmissionAllowed(t: Table, token: Token, task: TaskId, slot: bool, now: Time) {
    var j := t.job;
    && slot && LeaseValid(j, token, now) && j.submitStartedAt.None? && At(j, Received, SubmitPruna)
    && j.taskUuid == Some(task)
    // the attempt row is inserted in the same transaction, under the table's two unique keys
    && forall a <- t.attempts :: a.no != 1 && a.task != task
  }

  predicate BeginRetryAllowed(t: Table, token: Token, previous: TaskId, task: TaskId, slot: bool, now: Time) {
    var j := t.job;
    var i := Find(t.attempts, previous);
    && slot && LeaseValid(j, token, now) && At(j, Received, SubmitPruna) && j.taskUuid == Some(previous)
    && j.submitStartedAt.Some? && j.acceptedAt.None? && j.payload.None? && j.authHold.None?
    && j.notAcceptedAt.Some? && j.retryAt.Some? && j.retryAt.value <= now
    && i < |t.attempts| && t.attempts[i].notAccepted.Some? && MaxNo(t.attempts) < PRUNA_SUBMIT_LIMIT
    && forall a <- t.attempts :: a.task != task
  }

  predicate CancelAllowed(t: Table, token: Token, task: TaskId, now: Time) {
    var j := t.job;
    && j.taskUuid == Some(task) && j.status == Received && j.acceptedAt.None? && j.submitStartedAt.Some?
    && LeaseValid(j, token, now)
  }

  /** The attempt numbered just below the one made with this task. */
  function Previous(attempts: seq<Attempt>, task: TaskId): Option<Attempt> {
    var i := Find(attempts, task);
    if i == |attempts| then None else Numbered(attempts, attempts[i].no - 1)
  }

  function Numbered(attempts: seq<Attempt>, no: int): (a: Option<Attempt>)
    ensures a.Some? ==> a.value in attempts && a.value.no == no
    ensures a.None? ==> forall b <- attempts :: b.no != no
  {
    if attempts == [] then None else if attempts[0].no == no then Some(attempts[0]) else Numbered(attempts[1..], no)
  }

  /** Undo a submission that certainly never left: back to the previous attempt's record, or to "not started". */
  function CancelStep(t: Table, task: TaskId, now: Time): Table {
    var j := t.job;
    var undone := match Previous(t.attempts, task)
      case None => j.(submitStartedAt := None)
      case Some(p) => j.(taskUuid := Some(p.task), submitStartedAt := Some(p.startedAt),
                         notAcceptedAt := if p.notAccepted.Some? then Some(p.notAccepted.value.at) else None,
                         retryAt := Coalesce(p.nextAt, Some(now)));
    Table(undone.(updatedAt := now), Without(t.attempts, task))
  }

  predicate AttemptApplies(c: AttemptCommand, t: Table, now: Time, horizon: Time) {
    match c
    case NotAcceptedReport(task, code, source, retryAfter, unrepresentable) =>
      var outcome := NotAcceptedStep(t, task, code, source, retryAfter, unrepresentable, now, horizon).1;
      outcome.Scheduled? || outcome.Exhausted? || outcome.HeldBack?
    case Contradiction(task, _) =>
      var i := Find(t.attempts, task);
      i < |t.attempts| && t.attempts[i].notAccepted.Some?
    case BeginSubmission(token, task, slot) => BeginSubmissionAllowed(t, token, task, slot, now)
    case BeginRetry(token, previous, task, slot) => BeginRetryAllowed(t, token, previous, task, slot, now)
    case CancelUnsent(token, task) => CancelAllowed(t, token, task, now)
  }

  function AttemptStep(c: AttemptCommand, t: Table, now: Time, horizon: Time): Table {
    var j := t.job;
    match c
    case NotAcceptedReport(task, code, source, retryAfter, unrepresentable) =>
      NotAcceptedStep(t, task, code, source, retryAfter, unrepresentable, now, horizon).0
    case Contradiction(task, reason) => ContradictionStep(t, task, reason, now)
    case BeginSubmission(token, task, slot) =>
      if BeginSubmissionAllowed(t, token, task, slot, now) then
        Table(j.(submitStartedAt := Some(now), updatedAt := now),
              t.attempts + [Attempt(1, task, now, None, None, None)])
      else t
    case BeginRetry(token, previous, task, slot) =>
      if BeginRetryAllowed(t, token, previous, task, slot, now) then
        Table(j.(taskUuid := Some(task), submitStartedAt := Some(now), notAcceptedAt := None, retryAt := None,
                 updatedAt := now),
              t.attempts + [Attempt(MaxNo(t.attempts) + 1, task, now, None, None, None)])
      else t
    case CancelUnsent(token, task) => if CancelAllowed(t, token, task, now) then CancelStep(t, task, now) else t
  }

  // ----- one atomic step -----

  /** The call finds its row in the state its WHERE clause asks for. */
  predicate Applies(c: Command, t: Table, now: Time, horizon: Time) {
    var j := t.job;
    match c
    case LeaseCall(l) => LeaseGuard(l, j, now)
    case SubmitCall(token, s) => LeaseValid(j, token, now) && SubmitGuard(s, j)
    case EventCall(task, e) => EventAllowed(j, task) && EventGuard(e, j)
    case StageCall(token, s) => LeaseValid(j, token, now) && StageGuard(s, j)
    case ResultCall(token, r) => LeaseValid(j, token, now) && ResultGuard(r, j)
    case AttemptCall(a) => AttemptApplies(a, t, now, horizon)
  }

  /** The row after a call that touches the row only. */
  function RowStep(c: Command, j: Job, now: Time): Job
    requires !c.AttemptCall?
  {
    match c
    case LeaseCall(l) => if LeaseGuard(l, j, now) then LeaseEffect(l, j, now).(updatedAt := now) else j
    case SubmitCall(token, s) =>
      if LeaseValid(j, token, now) && SubmitGuard(s, j) then SubmitEffect(s, j, now).(updatedAt := now) else j
    case EventCall(task, e) =>
      if EventAllowed(j, task) && EventGuard(e, j) then Stamped(e, EventEffect(e, j, task, now), now) else j
    case StageCall(token, s) =>
      if LeaseValid(j, token, now) && StageGuard(s, j) then StageEffect(s, j, now).(updatedAt := now) else j
    case ResultCall(token, r) =>
      if LeaseValid(j, token, now) && ResultGuard(r, j) then ResultEffect(r, j).(updatedAt := now) else j
  }

  function Step(c: Command, t: Table, now: Time, horizon: Time): Table {
    match c
    case AttemptCall(a) => AttemptStep(a, t, now, horizon)
    case _ => Table(RowStep(c, t.job, now), t.attempts)
  }
}
