/**
 Runs of the request queue: any number of request workers process copies of one job's message while every other
 actor changes the row underneath them. No worker's deletion ever loses the job.
 */
module RequestRuns {
  import opened Basics
  import opened Jobs
  import opened Transitions
  import opened RowInvariant
  import opened NextStep
  import Guards

  type WorkerId = nat

  datatype Worker =
    | Idle
    | PastSubmit                                       // saw a row that is past its submission
    | Holding(token: Token)                            // holds the lease of a job not yet started
    | Sending(token: Token, task: TaskId, first: bool) // start recorded, request not sent yet
    | Sent(token: Token, task: TaskId)                 // the request may have left
    | Deciding                                         // about to read the row and decide
    | MayDelete                                        // decided to delete; has not done so yet

  /** sent, requests: tasks whose request may have left, and how many requests did; tokens, tasks: all ever drawn. */
  datatype World = World(
    table: Table, now: Time, tokens: set<Token>, tasks: set<TaskId>, sent: set<TaskId>, requests: nat,
    workers: map<WorkerId, Worker>, deleted: bool)

  datatype Action =
    | Tick(now: Time)
    | Others(c: Command)
    | Receive(i: WorkerId)
    | Grab(i: WorkerId, token: Token, duration: int)
    | GrabScheduled(i: WorkerId, token: Token, duration: int)
    | SaveFailure(i: WorkerId, p: Payload)
    | PrepareTask(i: WorkerId, task: TaskId, key: Key)
    | SeeStarted(i: WorkerId)
    | BeginFirst(i: WorkerId, slot: bool)
    | BeginAgain(i: WorkerId, task: TaskId, slot: bool)
    | Undo(i: WorkerId)
    | Send(i: WorkerId)
    | Answered(i: WorkerId)
    | Decide(i: WorkerId, paths: Paths, fallbackQueued: bool)
    | Delete(i: WorkerId)
    | Crash(i: WorkerId)

  function Of(w: World, i: WorkerId): Worker { if i in w.workers then w.workers[i] else Idle }

  function Put(w: World, i: WorkerId, worker: Worker): World { w.(workers := w.workers[i := worker]) }

  function Dispatched(w: World, i: WorkerId, token: Token, task: TaskId): World {
    Put(w, i, Sent(token, task)).(sent := w.sent + {task}, requests := w.requests + 1)
  }

  function Apply(w: World, c: Command, horizon: Time): World { w.(table := Step(c, w.table, w.now, horizon)) }

  /** The provider only reports on tasks it was sent; nobody else starts or undoes submissions. */
  predicate AllowedToOthers(w: World, c: Command) {
    && Honest(c, w.table)
    && match c
       case LeaseCall(Acquire(token, _, _)) => token !in w.tokens
       case SubmitCall(_, Prepare(task, _, _)) => task !in w.tasks
       case SubmitCall(_, RunwareAccepted(task)) => task in w.sent
       case SubmitCall(_, MarkStarted) => false
       case EventCall(task, _) => task in w.sent
       case AttemptCall(NotAcceptedReport(task, _, _, _, _)) => task in w.sent
       case AttemptCall(Contradiction(task, _)) => task in w.sent
       case AttemptCall(_) => false
       case _ => true
  }

  predicate WaitingForFallback(j: Job) {
    At(j, FallbackRunning, RunFallback) && j.payload.None?
  }

  predicate Enabled(w: World, a: Action, horizon: Time) {
    var j := w.table.job;
    match a
    case Tick(now) => w.now <= now
    case Others(c) => AllowedToOthers(w, c)
    case Receive(i) => Of(w, i).Idle? && (Settled(j) || j.nextAction != Some(SubmitPruna))
    case Grab(i, token, duration) =>
      && Of(w, i).Idle? && token !in w.tokens
      && Applies(LeaseCall(Acquire(token, SubmitPruna, duration)), w.table, w.now, horizon)
    case GrabScheduled(i, token, duration) =>
      && Of(w, i).Idle? && token !in w.tokens && NotAcceptedPending(j) && j.retryAt.Some?
      && Applies(LeaseCall(Acquire(token, SubmitPruna, duration)), w.table, w.now, horizon)
    case SaveFailure(i, p) => Of(w, i).Holding? && p.FailedResult?
    case PrepareTask(i, task, _) => Of(w, i).Holding? && task !in w.tasks
    case SeeStarted(i) =>
      Of(w, i).Holding? && LeaseValid(j, Of(w, i).token, w.now) && j.submitStartedAt.Some?
    case BeginFirst(i, slot) =>
      && Of(w, i).Holding? && j.taskUuid.Some?
      && BeginSubmissionAllowed(w.table, Of(w, i).token, j.taskUuid.value, slot, w.now)
    case BeginAgain(i, task, slot) =>
      && Of(w, i).Holding? && j.taskUuid.Some? && task !in w.tasks
      && BeginRetryAllowed(w.table, Of(w, i).token, j.taskUuid.value, task, slot, w.now)
    case Undo(i) => Of(w, i).Sending?
    case Send(i) => Of(w, i).Sending?
    case Answered(i) => Of(w, i).Sent?
    case Decide(i, paths, fallbackQueued) => Of(w, i).Deciding? || Of(w, i).PastSubmit?
    case Delete(i) => Of(w, i).MayDelete?
    case Crash(i) => true
  }

  function Do(w: World, a: Action, horizon: Time): World
    requires Enabled(w, a, horizon)
  {
    var j := w.table.job;
    match a
    case Tick(now) => w.(now := now)
    case Others(c) =>
      var w' := Apply(w, c, horizon);
      (match c
       case LeaseCall(Acquire(token, _, _)) => w'.(tokens := w.tokens + {token})
       case SubmitCall(_, Prepare(task, _, _)) => w'.(tasks := w.tasks + {task})
       case _ => w')
    case Receive(i) => Put(w, i, if Settled(j) then MayDelete else PastSubmit)
    case Grab(i, token, duration) =>
      // the row the grant returns tells whether a request may already have been sent
      Put(Apply(w, LeaseCall(Acquire(token, SubmitPruna, duration)), horizon).(tokens := w.tokens + {token}), i,
          if j.submitStartedAt.Some? then Deciding else Holding(token))
    case GrabScheduled(i, token, duration) =>
      Put(Apply(w, LeaseCall(Acquire(token, SubmitPruna, duration)), horizon).(tokens := w.tokens + {token}), i,
          Holding(token))
    case SaveFailure(i, p) =>
      var w' := Apply(w, ResultCall(Of(w, i).token, Save(p, None)), horizon);
      Put(w', i, if w'.table.job.payload.Some? then Deciding else Idle)
    case PrepareTask(i, task, key) =>
      Apply(w, SubmitCall(Of(w, i).token, Prepare(task, key, true)), horizon).(tasks := w.tasks + {task})
    case SeeStarted(i) => Put(w, i, Deciding)
    case BeginFirst(i, slot) =>
      var token, task := Of(w, i).token, j.taskUuid.value;
      Put(Apply(w, AttemptCall(BeginSubmission(token, task, slot)), horizon), i, Sending(token, task, true))
    case BeginAgain(i, task, slot) =>
      var token := Of(w, i).token;
      Put(Apply(w, AttemptCall(BeginRetry(token, j.taskUuid.value, task, slot)), horizon).(tasks := w.tasks + {task}),
          i, Sending(token, task, false))
    case Undo(i) =>
      Put(Apply(w, AttemptCall(CancelUnsent(Of(w, i).token, Of(w, i).task)), horizon), i, Idle)
    case Send(i) => Dispatched(w, i, Of(w, i).token, Of(w, i).task)
    case Answered(i) => Put(w, i, Deciding)
    case Decide(i, paths, fallbackQueued) =>
      var delete := if WaitingForFallback(j) then fallbackQueued || DeletionAllowed(j, paths)
                    else DeletionAllowed(j, paths);
      Put(w, i, if delete then MayDelete else Idle)
    case Delete(i) => Put(w, i, Idle).(deleted := true)
    case Crash(i) => Put(w, i, Idle)
  }

  /** The run of a schedule; an action that is not enabled where it stands does nothing. */
  function Run(w: World, schedule: seq<Action>, horizon: Time): World {
    if schedule == [] then w
    else
      var last := schedule[|schedule| - 1];
      var before := Run(w, schedule[..|schedule| - 1], horizon);
      if Enabled(before, last, horizon) then Do(before, last, horizon) else before
  }

  function Start(id: int, fingerprint: string, now: Time): World {
    World(Table(NewJob(id, fingerprint, now), []), now, {}, {}, {}, 0, map[], false)
  }

  // ----- the invariant -----

  predicate HoldsRow(t: Table, token: Token) { t.job.lease.Some? && t.job.lease.value.token == token }

  /** A worker that could still undo the job's first submission. */
  predicate Undoer(t: Table, worker: Worker) { worker.Sending? && worker.first && HoldsRow(t, worker.token) }

  /** Nobody but worker i could take the job back to "never submitted". */
  ghost predicate Solo(w: World, i: int) {
    At(w.table.job, Received, SubmitPruna) ==>
      w.table.job.submitStartedAt.Some? && forall k: nat :: k != i ==> !Undoer(w.table, Of(w, k))
  }

  predicate HasToken(w: Worker) { w.Holding? || w.Sending? || w.Sent? }

  predicate Committed(w: Worker) { !w.Idle? && !w.Holding? }

  ghost predicate TokensInv(w: World) {
    && (w.table.job.lease.Some? ==> w.table.job.lease.value.token in w.tokens)
    && (forall i: nat :: HasToken(Of(w, i)) ==> Of(w, i).token in w.tokens)
    && (forall i: nat, k: nat :: i != k && HasToken(Of(w, i)) && HasToken(Of(w, k)) ==>
          Of(w, i).token != Of(w, k).token)
  }

  predicate Listed(attempts: seq<Attempt>, task: TaskId) { exists k :: 0 <= k < |attempts| && attempts[k].task == task }

  /** What the record says about the tasks: only tasks that were sent have ever been reported on. */
  predicate RecordInv(t: Table, tasks: set<TaskId>, sent: set<TaskId>) {
    && sent <= tasks && (forall task <- sent :: Listed(t.attempts, task))
    && (t.job.taskUuid.Some? ==> t.job.taskUuid.value in tasks)
    && (forall a <- t.attempts :: a.task in tasks && (a.notAccepted.Some? ==> a.task in sent))
    && (t.job.authHold.Some? ==> t.job.authHold.value.task in sent)
    && (t.job.submitStartedAt.None? && t.job.taskUuid.Some? ==> t.job.taskUuid.value !in sent)
  }

  /** A task about to be sent: unsent so far, and a retry has its predecessor on record. */
  predicate SendingFits(t: Table, tasks: set<TaskId>, sent: set<TaskId>, worker: Worker) {
    worker.Sending? ==>
      && worker.task in tasks && worker.task !in sent && Listed(t.attempts, worker.task)
      && (t.job.taskUuid == Some(worker.task) ==>
            t.job.submitStartedAt.Some? && (worker.first || |t.attempts| >= 2))
  }

  ghost predicate TasksInv(w: World) {
    && RecordInv(w.table, w.tasks, w.sent) && w.requests == |w.sent|
    && (forall i: nat :: SendingFits(w.table, w.tasks, w.sent, Of(w, i)))
    && (forall i: nat, k: nat :: i != k && Of(w, i).Sending? && Of(w, k).Sending? ==> Of(w, i).task != Of(w, k).task)
  }

  ghost predicate DecisionsInv(w: World) {
    (forall i: nat :: Committed(Of(w, i)) ==> Solo(w, i)) && (w.deleted ==> Solo(w, -1))
  }

  ghost predicate Good(w: World) { Inv(w.table) && TokensInv(w) && TasksInv(w) && DecisionsInv(w) }

  // ----- what one step does to lease, tasks and start record -----

  /** Leases come from Acquire only; any other step keeps the token or drops it. */
  lemma RowLease(c: Command, j: Job, now: Time)
    requires !c.AttemptCall? && !(c.LeaseCall? && c.lease.Acquire?)
    ensures var lease := RowStep(c, j, now).lease;
            lease.Some? ==> j.lease.Some? && lease.value.token == j.lease.value.token
  {}

  lemma AttemptLease(c: AttemptCommand, t: Table, now: Time, horizon: Time)
    ensures AttemptStep(c, t, now, horizon).job.lease == t.job.lease
  {}

  lemma RowStart(c: Command, j: Job, now: Time)
    requires !c.AttemptCall? && !(c.SubmitCall? && c.submit.MarkStarted?)
    ensures RowStep(c, j, now).submitStartedAt == j.submitStartedAt
  {}

  lemma RowTask(c: Command, j: Job, now: Time)
    requires !c.AttemptCall?
    ensures var task := RowStep(c, j, now).taskUuid;
            task == j.taskUuid || (c.SubmitCall? && c.submit.Prepare? && task == Some(c.submit.task))
  {}

  lemma RowHold(c: Command, j: Job, now: Time)
    requires !c.AttemptCall?
    ensures var j' := RowStep(c, j, now);
            j'.authHold == j.authHold || (c.EventCall? && j'.authHold.Some? && j'.authHold.value.task == c.task)
  {}

  // ----- steps that leave every worker where it is -----

  /** A change of the record that no worker's position depends on. */
  predicate Calm(w: World, t': Table, tokens: set<Token>, tasks: set<TaskId>) {
    var j, j' := w.table.job, t'.job;
    && Inv(t') && RecordInv(t', tasks, w.sent) && w.tokens <= tokens && w.tasks <= tasks
    && (j'.lease.Some? ==>
          && j'.lease.value.token in tokens
          && (HoldsRow(w.table, j'.lease.value.token) || j'.lease.value.token !in w.tokens))
    && (At(j', Received, SubmitPruna) ==> At(j, Received, SubmitPruna))
    && j'.submitStartedAt == j.submitStartedAt
    && (j'.taskUuid == j.taskUuid || (j'.taskUuid.Some? && j'.taskUuid.value !in w.tasks))
    && |w.table.attempts| <= |t'.attempts|
    && (forall a <- w.table.attempts :: Listed(t'.attempts, a.task))
  }

  lemma CalmKeeps(w: World, t': Table, tokens: set<Token>, tasks: set<TaskId>)
    requires Good(w) && Calm(w, t', tokens, tasks)
    ensures Good(w.(table := t', tokens := tokens, tasks := tasks))
  {
    var w' := w.(table := t', tokens := tokens, tasks := tasks);
    assert forall i: nat :: Of(w', i) == Of(w, i);
    forall i: nat
      ensures Undoer(t', Of(w, i)) ==> Undoer(w.table, Of(w, i))
    {}
  }

  /** The commands nobody needs a submission of their own for. */
  predicate Ordinary(w: World, c: Command) {
    match c
    case SubmitCall(_, RunwareAccepted(task)) => task in w.sent
    case SubmitCall(_, MarkStarted) => false
    case EventCall(task, _) => task in w.sent
    case AttemptCall(NotAcceptedReport(task, _, _, _, _)) => task in w.sent
    case AttemptCall(Contradiction(task, _)) => task in w.sent
    case AttemptCall(_) => false
    case _ => true
  }

  lemma RowCalm(w: World, c: Command, horizon: Time, tokens: set<Token>, tasks: set<TaskId>)
    requires Good(w) && Honest(c, w.table) && Ordinary(w, c) && !c.AttemptCall?
    requires if c.LeaseCall? && c.lease.Acquire? then tokens == w.tokens + {c.lease.token} && c.lease.token !in w.tokens
             else tokens == w.tokens
    requires if c.SubmitCall? && c.submit.Prepare? then tasks == w.tasks + {c.submit.task} && c.submit.task !in w.tasks
             else tasks == w.tasks
    ensures Calm(w, Step(c, w.table, w.now, horizon), tokens, tasks)
  {
    hide RowStep, LeaseGuard, Inv, Evolves, Honest;
    StepKeepsInvariant(c, w.table, w.now, horizon);
    RowStart(c, w.table.job, w.now);
    RowTask(c, w.table.job, w.now);
    RowHold(c, w.table.job, w.now);
    if c.LeaseCall? && c.lease.Acquire? { AcquireLease(c.lease, w.table.job, w.now); }
    else { RowLease(c, w.table.job, w.now); }
    if !At(w.table.job, Received, SubmitPruna) { RowStepLeavesSubmit(c, w.table.job, w.now); }
  }

  lemma AcquireLease(c: LeaseCommand, j: Job, now: Time)
    requires c.Acquire?
    ensures var lease := RowStep(LeaseCall(c), j, now).lease;
            lease == j.lease || (lease.Some? && lease.value.token == c.token)
  {}

  /** A report adds at most the row of the current attempt, and marks only what it reports on. */
  predicate Reported(t: Table, t': Table, task: TaskId) {
    && |t.attempts| <= |t'.attempts| && (forall a <- t.attempts :: Listed(t'.attempts, a.task))
    && t'.job.submitStartedAt == t.job.submitStartedAt && t'.job.taskUuid == t.job.taskUuid
    && t'.job.authHold == t.job.authHold && t'.job.status == t.job.status
    && (t'.job.nextAction == Some(SubmitPruna) ==> t.job.nextAction == Some(SubmitPruna))
    && forall a' <- t'.attempts ::
         || (exists a <- t.attempts :: a.task == a'.task && (a'.notAccepted == a.notAccepted || a'.task == task))
         || (t.job.taskUuid == Some(task) && a'.task == task)
  }

  /** The attempts after judging the one at position i differ there only, and keep its task. */
  lemma JudgedOne(j: Job, attempts: seq<Attempt>, i: nat, code: string, source: Source,
                  retryAfter: Option<nat>, unrepresentable: bool, now: Time, horizon: Time)
    requires i < |attempts|
    ensures var t' := Judged(j, attempts, i, code, source, retryAfter, unrepresentable, now, horizon).0;
            && |t'.attempts| == |attempts| && t'.attempts[i].task == attempts[i].task
            && (forall k :: 0 <= k < |attempts| && k != i ==> t'.attempts[k] == attempts[k])
            && t'.job.submitStartedAt == j.submitStartedAt && t'.job.taskUuid == j.taskUuid
            && t'.job.authHold == j.authHold && t'.job.status == j.status
            && (t'.job.nextAction == Some(SubmitPruna) ==> j.nextAction == Some(SubmitPruna))
  {
    hide RetryTime, RejectedPayload;
  }

  lemma NotAcceptedReported(t: Table, task: TaskId, code: string, source: Source,
                            retryAfter: Option<nat>, unrepresentable: bool, now: Time, horizon: Time)
    ensures Reported(t, NotAcceptedStep(t, task, code, source, retryAfter, unrepresentable, now, horizon).0, task)
  {
    hide Judged;
    if t.job.taskUuid == Some(task) && t.job.submitStartedAt.Some? {
      var known := KnownAttempts(t, task);
      var i := Find(known, task);
      if i < |known| {
        JudgedOne(t.job, known, i, code, source, retryAfter, unrepresentable, now, horizon);
        var after := Judged(t.job, known, i, code, source, retryAfter, unrepresentable, now, horizon).0.attempts;
        ListedStays(t.attempts, after);
      }
    }
  }

  lemma ListedStays(a: seq<Attempt>, b: seq<Attempt>)
    requires |a| <= |b| && forall k :: 0 <= k < |a| ==> b[k].task == a[k].task
    ensures forall x <- a :: Listed(b, x.task)
    ensures forall task :: Listed(a, task) ==> Listed(b, task)
  {}

  lemma ContradictionReported(t: Table, task: TaskId, reason: string, now: Time)
    ensures Reported(t, ContradictionStep(t, task, reason, now), task)
  {
    ListedStays(t.attempts, ContradictionStep(t, task, reason, now).attempts);
  }

  lemma ReportedCalm(w: World, t': Table, task: TaskId)
    requires Good(w) && Inv(t') && Reported(w.table, t', task) && task in w.sent
    requires t'.job.lease == w.table.job.lease
    ensures Calm(w, t', w.tokens, w.tasks)
  {
    hide Inv;
  }

  lemma ReportCalm(w: World, c: AttemptCommand, horizon: Time)
    requires Good(w) && Ordinary(w, AttemptCall(c))
    ensures Calm(w, AttemptStep(c, w.table, w.now, horizon), w.tokens, w.tasks)
  {
    StepKeepsInvariant(AttemptCall(c), w.table, w.now, horizon);
    AttemptLease(c, w.table, w.now, horizon);
    hide Inv, Good, Calm, Reported, NotAcceptedStep, ContradictionStep;
    match c
    case NotAcceptedReport(task, code, source, retryAfter, unrepresentable) =>
      NotAcceptedReported(w.table, task, code, source, retryAfter, unrepresentable, w.now, horizon);
      ReportedCalm(w, AttemptStep(c, w.table, w.now, horizon), task);
    case Contradiction(task, reason) =>
      ContradictionReported(w.table, task, reason, w.now);
      ReportedCalm(w, AttemptStep(c, w.table, w.now, horizon), task);
  }

  // ----- steps of one worker -----

  /** A worker that lets go of its lease, or takes a decision only it could still spoil. */
  lemma SettleKeeps(w: World, i: WorkerId, worker: Worker)
    requires Good(w) && !HasToken(worker) && (Committed(worker) ==> Solo(w, i))
    ensures Good(Put(w, i, worker))
  {
    var w' := Put(w, i, worker);
    assert Of(w', i) == worker;
    assert forall k: nat :: k != i ==> Of(w', k) == Of(w, k);
  }

  lemma HoldKeeps(w: World, i: WorkerId, token: Token)
    requires Good(w) && token in w.tokens && forall k: nat :: HasToken(Of(w, k)) ==> Of(w, k).token != token
    ensures Good(Put(w, i, Holding(token)))
  {
    var w' := Put(w, i, Holding(token));
    assert Of(w', i) == Holding(token);
    assert forall k: nat :: k != i ==> Of(w', k) == Of(w, k);
  }

  lemma SendKeeps(w: World, i: WorkerId)
    requires Good(w) && Of(w, i).Sending?
    ensures Good(Dispatched(w, i, Of(w, i).token, Of(w, i).task))
  {
    hide Inv;
    var w' := Dispatched(w, i, Of(w, i).token, Of(w, i).task);
    assert forall k: nat :: k != i ==> Of(w', k) == Of(w, k);
    assert Of(w', i).Sent?;
  }

  /** A granted submission: the attempt is on record, and only its worker could still take it back. */
  lemma GrantKeeps(w: World, i: WorkerId, t': Table, tasks: set<TaskId>, task: TaskId, first: bool)
    requires Good(w) && Of(w, i).Holding? && HoldsRow(w.table, Of(w, i).token) && Inv(t') && w.tasks <= tasks
    requires var j, j' := w.table.job, t'.job;
             && j'.lease == j.lease && j'.authHold == j.authHold && j'.submitStartedAt.Some?
             && j'.taskUuid == Some(task) && At(j, Received, SubmitPruna) && (first || j.submitStartedAt.Some?)
    requires task in tasks && task !in w.sent && forall k: nat :: Of(w, k).Sending? ==> Of(w, k).task != task
    requires var n := |w.table.attempts|;
             && |t'.attempts| == n + 1 && t'.attempts[..n] == w.table.attempts && (first || n >= 1)
             && t'.attempts[n].task == task && t'.attempts[n].notAccepted.None?
    requires first ==> forall k: nat :: !Committed(Of(w, k))
    requires first ==> !w.deleted
    ensures Good(Put(w.(table := t', tasks := tasks), i, Sending(Of(w, i).token, task, first)))
  {
    hide Inv;
    var w' := Put(w.(table := t', tasks := tasks), i, Sending(Of(w, i).token, task, first));
    assert forall k: nat :: k != i ==> Of(w', k) == Of(w, k);
    assert forall k :: 0 <= k < |w.table.attempts| ==> t'.attempts[k] == w.table.attempts[k];
    ListedStays(w.table.attempts, t'.attempts);
    assert Listed(t'.attempts, task);
  }

  lemma BeginFirstKeeps(w: World, i: WorkerId, slot: bool, horizon: Time)
    requires Good(w) && Enabled(w, BeginFirst(i, slot), horizon)
    ensures Good(Do(w, BeginFirst(i, slot), horizon))
  {
    var token, task := Of(w, i).token, w.table.job.taskUuid.value;
    var c := BeginSubmission(token, task, slot);
    StepKeepsInvariant(AttemptCall(c), w.table, w.now, horizon);
    hide Inv;
    GrantKeeps(w, i, AttemptStep(c, w.table, w.now, horizon), w.tasks, task, true);
  }

  lemma BeginAgainKeeps(w: World, i: WorkerId, task: TaskId, slot: bool, horizon: Time)
    requires Good(w) && Enabled(w, BeginAgain(i, task, slot), horizon)
    ensures Good(Do(w, BeginAgain(i, task, slot), horizon))
  {
    var token := Of(w, i).token;
    var c := BeginRetry(token, w.table.job.taskUuid.value, task, slot);
    StepKeepsInvariant(AttemptCall(c), w.table, w.now, horizon);
    hide Inv;
    GrantKeeps(w, i, AttemptStep(c, w.table, w.now, horizon), w.tasks + {task}, task, false);
  }

  /** An undone submission leaves either a job never started, or the previous attempt as it was recorded. */
  predicate UndoneTo(t: Table, t': Table, task: TaskId) {
    var n := |t.attempts| - 1;
    && t.job.taskUuid == Some(task) && t'.job.lease == t.job.lease && t'.job.authHold == t.job.authHold
    && t'.job.status == t.job.status && t'.job.nextAction == t.job.nextAction
    && (if n < 0 then t'.attempts == [] else t'.attempts == t.attempts[..n] && t.attempts[n].task == task)
    && if n <= 0 then t'.job.submitStartedAt.None? && t'.job.taskUuid == Some(task)
       else t.attempts[n - 1].notAccepted.Some? && t'.job.submitStartedAt.Some?
            && t'.job.taskUuid == Some(t.attempts[n - 1].task)
  }

  lemma UndoneList(t: Table, task: TaskId)
    requires Lined(t) && t.job.taskUuid == Some(task)
    ensures var n := |t.attempts| - 1;
            && Previous(t.attempts, task) == (if n <= 0 then None else Some(t.attempts[n - 1]))
            && Without(t.attempts, task) == if n < 0 then [] else t.attempts[..n]
  {
    var n := |t.attempts| - 1;
    if n >= 0 {
      FindAt(t.attempts, n);
      NumberedAt(t.attempts, n);
      WithoutLast(t.attempts, task);
    }
  }

  lemma UndoneRecord(t: Table, task: TaskId, now: Time)
    requires Inv(t) && t.job.taskUuid == Some(task)
    ensures UndoneTo(t, CancelStep(t, task, now), task)
  {
    hide Legal, Previous, Without;
    UndoneList(t, task);
  }

  /** Of the attempts, only the undone one is missing afterwards. */
  lemma ListedUnlessUndone(t: Table, t': Table, undone: TaskId, task: TaskId)
    requires UndoneTo(t, t', undone) && Listed(t.attempts, task) && task != undone
    ensures Listed(t'.attempts, task)
  {
    var k :| 0 <= k < |t.attempts| && t.attempts[k].task == task;
    assert t'.attempts[k].task == task;
  }

  lemma UndoneTasks(w: World, i: WorkerId, t': Table)
    requires Good(w) && Of(w, i).Sending? && HoldsRow(w.table, Of(w, i).token) && UndoneTo(w.table, t', Of(w, i).task)
    ensures TasksInv(Put(w.(table := t'), i, Idle))
  {
    hide Inv;
    var w' := Put(w.(table := t'), i, Idle);
    assert Of(w', i) == Idle && SendingFits(w.table, w.tasks, w.sent, Of(w, i));
    assert forall k: nat :: k != i ==> Of(w', k) == Of(w, k);
    assert forall a <- t'.attempts :: a in w.table.attempts;
    forall task | Listed(w.table.attempts, task) && task != Of(w, i).task
      ensures Listed(t'.attempts, task)
    {
      ListedUnlessUndone(w.table, t', Of(w, i).task, task);
    }
    if |w.table.attempts| > 1 {
      assert w.table.attempts[|w.table.attempts| - 2] in w.table.attempts;
    }
  }

  lemma UndoneKeeps(w: World, i: WorkerId, t': Table)
    requires Good(w) && Of(w, i).Sending? && HoldsRow(w.table, Of(w, i).token) && Inv(t')
    requires UndoneTo(w.table, t', Of(w, i).task)
    ensures Good(Put(w.(table := t'), i, Idle))
  {
    UndoneTasks(w, i, t');
    hide Inv, RecordInv;
    var w' := Put(w.(table := t'), i, Idle);
    assert Of(w', i) == Idle && SendingFits(w.table, w.tasks, w.sent, Of(w, i));
    assert forall k: nat :: k != i ==> Of(w', k) == Of(w, k);
    if |w.table.attempts| <= 1 {
      assert Undoer(w.table, Of(w, i));
    }
  }

  /** What the worker knows when it takes its submission back: nobody has reported on a request that never left. */
  lemma UndoIsHonest(w: World, i: WorkerId)
    requires Good(w) && Of(w, i).Sending?
    ensures Honest(AttemptCall(CancelUnsent(Of(w, i).token, Of(w, i).task)), w.table)
  {
    hide Inv;
    assert SendingFits(w.table, w.tasks, w.sent, Of(w, i));
  }

  lemma UndoKeeps(w: World, i: WorkerId, horizon: Time)
    requires Good(w) && Enabled(w, Undo(i), horizon)
    ensures Good(Do(w, Undo(i), horizon))
  {
    hide Inv, Evolves, TasksInv, TokensInv, DecisionsInv, CancelStep, Honest, UndoneTo, Applies;
    hide NotAcceptedStep, ContradictionStep, BeginSubmissionAllowed, BeginRetryAllowed, RowStep;
    var token, task := Of(w, i).token, Of(w, i).task;
    UndoIsHonest(w, i);
    StepKeepsInvariant(AttemptCall(CancelUnsent(token, task)), w.table, w.now, horizon);
    if CancelAllowed(w.table, token, task, w.now) {
      UndoneRecord(w.table, task, w.now);
      UndoneKeeps(w, i, CancelStep(w.table, task, w.now));
    } else {
      SettleKeeps(w, i, Idle);
    }
  }

  /** Reading the row, answering, deciding and crashing change no record: only the worker moves. */
  lemma MoveKeeps(w: World, a: Action, i: WorkerId, horizon: Time)
    requires Good(w) && Enabled(w, a, horizon)
    requires a == Receive(i) || a == SeeStarted(i) || a == Answered(i) || a == Crash(i) || (a.Decide? && a.i == i)
    ensures Good(Do(w, a, horizon))
  {
    hide Inv, TasksInv, DeletionAllowed;
    var w' := Do(w, a, horizon);
    assert w' == Put(w, i, w'.workers[i]);
    SettleKeeps(w, i, w'.workers[i]);
  }

  lemma PrepareKeeps(w: World, i: WorkerId, task: TaskId, key: Key, horizon: Time)
    requires Good(w) && Enabled(w, PrepareTask(i, task, key), horizon)
    ensures Good(Do(w, PrepareTask(i, task, key), horizon))
  {
    hide Good, Step;
    RowKeeps(w, SubmitCall(Of(w, i).token, Prepare(task, key, true)), horizon, w.tokens, w.tasks + {task});
  }

  /** Every action of every actor keeps the invariant. */
  lemma DoKeeps(w: World, a: Action, horizon: Time)
    requires Good(w) && Enabled(w, a, horizon)
    ensures Good(Do(w, a, horizon))
  {
    hide Good, Step, Applies, Honest, LeaseValid, BeginSubmissionAllowed, BeginRetryAllowed;
    hide DeletionAllowed, NextStepFor;
    match a
    case Tick(now) => TickKeeps(w, now);
    case Others(c) => OthersKeep(w, c, horizon);
    case Grab(i, token, duration) => GrabKeeps(w, a, i, token, duration, horizon);
    case GrabScheduled(i, token, duration) => GrabKeeps(w, a, i, token, duration, horizon);
    case SaveFailure(i, p) => SaveFailureKeeps(w, i, p, horizon);
    case PrepareTask(i, task, key) => PrepareKeeps(w, i, task, key, horizon);
    case BeginFirst(i, slot) => BeginFirstKeeps(w, i, slot, horizon);
    case BeginAgain(i, task, slot) => BeginAgainKeeps(w, i, task, slot, horizon);
    case Undo(i) => UndoKeeps(w, i, horizon);
    case Send(i) => SendKeeps(w, i);
    case Delete(i) => DeleteKeeps(w, i);
    case _ => MoveKeeps(w, a, a.i, horizon);
  }

  lemma TickKeeps(w: World, now: Time)
    requires Good(w)
    ensures Good(w.(now := now))
  {
    var w' := w.(now := now);
    assert forall i: nat :: Of(w', i) == Of(w, i);
  }

  lemma DeleteKeeps(w: World, i: WorkerId)
    requires Good(w) && Of(w, i).MayDelete?
    ensures Good(Put(w, i, Idle).(deleted := true))
  {
    SettleKeeps(w, i, Idle);
    var w1 := Put(w, i, Idle);
    var w' := w1.(deleted := true);
    assert Solo(w, i) && !Of(w1, i).Sending?;
    assert forall k: nat :: k != i ==> Of(w1, k) == Of(w, k);
    assert forall k: nat :: Of(w', k) == Of(w1, k);
  }

  lemma RowKeeps(w: World, c: Command, horizon: Time, tokens: set<Token>, tasks: set<TaskId>)
    requires Good(w) && Honest(c, w.table) && Ordinary(w, c) && !c.AttemptCall?
    requires if c.LeaseCall? && c.lease.Acquire? then tokens == w.tokens + {c.lease.token} && c.lease.token !in w.tokens
             else tokens == w.tokens
    requires if c.SubmitCall? && c.submit.Prepare? then tasks == w.tasks + {c.submit.task} && c.submit.task !in w.tasks
             else tasks == w.tasks
    ensures Good(Apply(w, c, horizon).(tokens := tokens, tasks := tasks))
  {
    RowCalm(w, c, horizon, tokens, tasks);
    CalmKeeps(w, Step(c, w.table, w.now, horizon), tokens, tasks);
  }

  lemma OthersKeep(w: World, c: Command, horizon: Time)
    requires Good(w) && AllowedToOthers(w, c)
    ensures Good(Do(w, Others(c), horizon))
  {
    hide Good, RowStep, AttemptStep, Honest;
    if c.AttemptCall? {
      ReportCalm(w, c.attempt, horizon);
      CalmKeeps(w, AttemptStep(c.attempt, w.table, w.now, horizon), w.tokens, w.tasks);
      assert Do(w, Others(c), horizon) == Apply(w, c, horizon);
    } else {
      RowKeeps(w, c, horizon,
               if c.LeaseCall? && c.lease.Acquire? then w.tokens + {c.lease.token} else w.tokens,
               if c.SubmitCall? && c.submit.Prepare? then w.tasks + {c.submit.task} else w.tasks);
    }
  }

  lemma GrabKeeps(w: World, a: Action, i: WorkerId, token: Token, duration: int, horizon: Time)
    requires Good(w) && Enabled(w, a, horizon)
    requires a == Grab(i, token, duration) || a == GrabScheduled(i, token, duration)
    ensures Good(Do(w, a, horizon))
  {
    hide Inv, RecordInv;
    var c := LeaseCall(Acquire(token, SubmitPruna, duration));
    RowKeeps(w, c, horizon, w.tokens + {token}, w.tasks);
    var w1 := Apply(w, c, horizon).(tokens := w.tokens + {token});
    assert forall k: nat :: Of(w1, k) == Of(w, k);
    if a.Grab? && w.table.job.submitStartedAt.Some? {
      SettleKeeps(w1, i, Deciding);
    } else {
      HoldKeeps(w1, i, token);
    }
  }

  lemma SaveFailureKeeps(w: World, i: WorkerId, p: Payload, horizon: Time)
    requires Good(w) && Enabled(w, SaveFailure(i, p), horizon)
    ensures Good(Do(w, SaveFailure(i, p), horizon))
  {
    hide RecordInv, RowStep, TokensInv, TasksInv, Honest, ResultFits, OneImageSource, Keyed, Bounded, Progress, Lined;
    var c := ResultCall(Of(w, i).token, Save(p, None));
    RowKeeps(w, c, horizon, w.tokens, w.tasks);
    var w1 := Apply(w, c, horizon);
    SettleKeeps(w1, i, if w1.table.job.payload.Some? then Deciding else Idle);
  }

  lemma {:induction false} RunKeeps(id: int, fingerprint: string, now: Time, schedule: seq<Action>, horizon: Time)
    ensures Good(Run(Start(id, fingerprint, now), schedule, horizon))
  {
    var start := Start(id, fingerprint, now);
    if schedule == [] {
      InitInvariant(id, fingerprint, now);
    } else {
      var n := |schedule| - 1;
      RunKeeps(id, fingerprint, now, schedule[..n], horizon);
      var before := Run(start, schedule[..n], horizon);
      if Enabled(before, schedule[n], horizon) { DoKeeps(before, schedule[n], horizon); }
    }
  }

  /** No lost job: once any copy of the request message is deleted, the job is finished or has a next step, for good. */
  lemma NoLostJob(id: int, fingerprint: string, now: Time, schedule: seq<Action>, horizon: Time)
    ensures var w := Run(Start(id, fingerprint, now), schedule, horizon); w.deleted ==> Covered(w.table.job)
  {
    RunKeeps(id, fingerprint, now, schedule, horizon);
    NextStepMissingExactly(Run(Start(id, fingerprint, now), schedule, horizon).table);
  }

  lemma {:induction false} ListedBound(tasks: set<TaskId>, attempts: seq<Attempt>)
    requires forall task <- tasks :: Listed(attempts, task)
    ensures |tasks| <= |attempts|
  {
    if attempts == [] {
      assert tasks == {};
    } else {
      var n := |attempts| - 1;
      var rest := tasks - {attempts[n].task};
      forall task <- rest
        ensures Listed(attempts[..n], task)
      {
        var k :| 0 <= k <= n && attempts[k].task == task;
        assert attempts[..n][k].task == task;
      }
      ListedBound(rest, attempts[..n]);
    }
  }

  /** However the workers, resubmissions and reports interleave, at most four requests for a job ever leave. */
  lemma AtMostFourRequests(id: int, fingerprint: string, now: Time, schedule: seq<Action>, horizon: Time)
    ensures var w := Run(Start(id, fingerprint, now), schedule, horizon);
            w.requests <= |w.table.attempts| <= PRUNA_SUBMIT_LIMIT
  {
    RunKeeps(id, fingerprint, now, schedule, horizon);
    var w := Run(Start(id, fingerprint, now), schedule, horizon);
    ListedBound(w.sent, w.table.attempts);
    var n := |w.table.attempts|;
    if n > 0 { assert w.table.attempts[n - 1].no == n; }
  }

  // ----- nothing stands in the way -----

  function Next(w: World, a: Action, horizon: Time): World {
    if Enabled(w, a, horizon) then Do(w, a, horizon) else w
  }

  lemma Then(w: World, schedule: seq<Action>, a: Action, horizon: Time)
    ensures Run(w, schedule + [a], horizon) == Next(Run(w, schedule, horizon), a, horizon)
  {
    assert (schedule + [a])[..|schedule|] == schedule;
  }

  lemma {:induction false} RunAppend(w: World, a: seq<Action>, b: seq<Action>, horizon: Time)
    ensures Run(w, a + b, horizon) == Run(Run(w, a, horizon), b, horizon)
  {
    hide Enabled, Do;
    if b == [] {
      assert a + b == a;
    } else {
      var n := |b| - 1;
      RunAppend(w, a, b[..n], horizon);
      assert (a + b)[..|a| + n] == a + b[..n];
      assert (a + b)[|a| + n] == b[n];
    }
  }

  lemma Two(w: World, a: Action, b: Action, horizon: Time)
    ensures Run(w, [a, b], horizon) == Next(Next(w, a, horizon), b, horizon)
  {
    hide Enabled, Do;
    Then(w, [], a, horizon);
    assert [] + [a] == [a];
    Then(w, [a], b, horizon);
    assert [a] + [b] == [a, b];
  }

  /** A worker with nothing to do, and a lease that has run out. */
  predicate Rested(w: World, i: WorkerId) { Of(w, i).Idle? && LeaseFree(w.table.job, w.now) }

  lemma Rest(w: World, horizon: Time) returns (pause: seq<Action>)
    ensures var w1 := Run(w, pause, horizon);
            && Rested(w1, 0) && w1 == w.(now := w1.now, workers := w1.workers)
            && forall k: nat :: k != 0 ==> Of(w1, k) == Of(w, k)
  {
    hide Applies, DeletionAllowed, BeginSubmissionAllowed, BeginRetryAllowed, AllowedToOthers;
    var j := w.table.job;
    var free := if j.lease.Some? && w.now < j.lease.value.until then j.lease.value.until else w.now;
    pause := [Crash(0), Tick(free)];
    Two(w, Crash(0), Tick(free), horizon);
  }

  lemma Granted(w: World, i: WorkerId, token: Token, horizon: Time)
    requires Rested(w, i) && At(w.table.job, Received, SubmitPruna) && token !in w.tokens
    ensures var w1, j := Next(w, Grab(i, token, 1), horizon), w.table.job;
            && w1.table == Table(j.(lease := Some(Lease(token, w.now + 1)), updatedAt := w.now), w.table.attempts)
            && Of(w1, i) == (if j.submitStartedAt.Some? then Deciding else Holding(token))
            && w1 == w.(table := w1.table, tokens := w.tokens + {token}, workers := w1.workers)
  {
    hide DeletionAllowed, AllowedToOthers;
  }

  lemma LeaseDecidesNothing(j: Job, lease: Lease, now: Time, p: Paths)
    ensures DeletionAllowed(j.(lease := Some(lease), updatedAt := now), p) <==> DeletionAllowed(j, p)
  {}

  /** What a worker decides on, told from the columns: a part that is up carries the job on, or it is at the fallback
      with its own message queued. */
  predicate MayGo(j: Job, p: Paths, queued: bool) {
    || DeletionAllowed(j, p)
    || (j.status == FallbackRunning && j.nextAction == Some(RunFallback) && j.payload.None? && queued)
  }

  lemma Deletes(w: World, p: Paths, queued: bool, horizon: Time) returns (schedule: seq<Action>)
    requires Good(w) && MayGo(w.table.job, p, queued)
    ensures Run(w, schedule, horizon).deleted
    ensures Run(w, schedule, horizon).requests == w.requests
  {
    hide Good, Enabled, Do, Run, Inv, DeletionAllowed;
    var pause := Rest(w, horizon);
    var w1 := Run(w, pause, horizon);
    var rest;
    if Settled(w.table.job) || w.table.job.nextAction != Some(SubmitPruna) {
      rest := [Receive(0)] + [Decide(0, p, queued), Delete(0)];
      ReadAndDelete(w1, p, queued, horizon);
    } else {
      assert At(w.table.job, Received, SubmitPruna) && w.table.job.submitStartedAt.Some? by { StartedAlready(w, p); }
      var token := Undrawn(w1.tokens);
      rest := [Grab(0, token, 1)] + [Decide(0, p, queued), Delete(0)];
      GrabAndDelete(w1, token, p, queued, horizon);
    }
    RunAppend(w, pause, rest, horizon);
    schedule := pause + rest;
  }

  lemma StartedAlready(w: World, p: Paths)
    requires Good(w) && DeletionAllowed(w.table.job, p)
    requires !Settled(w.table.job) && w.table.job.nextAction == Some(SubmitPruna)
    ensures At(w.table.job, Received, SubmitPruna) && w.table.job.submitStartedAt.Some?
  {
    NextStepMissingExactly(w.table);
    hide ResultFits, OneImageSource, Keyed, Bounded, TokensInv, TasksInv, DecisionsInv;
  }

  lemma DecideAndDelete(w: World, p: Paths, queued: bool, horizon: Time)
    requires MayGo(w.table.job, p, queued) && (Of(w, 0).Deciding? || Of(w, 0).PastSubmit? || Of(w, 0).MayDelete?)
    ensures var w' := Run(w, [Decide(0, p, queued), Delete(0)], horizon); w'.deleted && w'.requests == w.requests
  {
    hide DeletionAllowed, Applies, BeginSubmissionAllowed, BeginRetryAllowed, AllowedToOthers;
    Two(w, Decide(0, p, queued), Delete(0), horizon);
  }

  lemma ReadAndDelete(w: World, p: Paths, queued: bool, horizon: Time)
    requires Rested(w, 0) && MayGo(w.table.job, p, queued)
    requires Settled(w.table.job) || w.table.job.nextAction != Some(SubmitPruna)
    ensures var w' := Run(w, [Receive(0)] + [Decide(0, p, queued), Delete(0)], horizon);
            w'.deleted && w'.requests == w.requests
  {
    hide DeletionAllowed, Applies, BeginSubmissionAllowed, BeginRetryAllowed, AllowedToOthers;
    RunAppend(w, [Receive(0)], [Decide(0, p, queued), Delete(0)], horizon);
    Then(w, [], Receive(0), horizon);
    assert [] + [Receive(0)] == [Receive(0)];
    DecideAndDelete(Run(w, [Receive(0)], horizon), p, queued, horizon);
  }

  lemma GrabAndDelete(w: World, token: Token, p: Paths, queued: bool, horizon: Time)
    requires Rested(w, 0) && MayGo(w.table.job, p, queued) && token !in w.tokens
    requires At(w.table.job, Received, SubmitPruna) && w.table.job.submitStartedAt.Some?
    ensures var w' := Run(w, [Grab(0, token, 1)] + [Decide(0, p, queued), Delete(0)], horizon);
            w'.deleted && w'.requests == w.requests
  {
    hide DeletionAllowed, Enabled, Do;
    RunAppend(w, [Grab(0, token, 1)], [Decide(0, p, queued), Delete(0)], horizon);
    Then(w, [], Grab(0, token, 1), horizon);
    assert [] + [Grab(0, token, 1)] == [Grab(0, token, 1)];
    Granted(w, 0, token, horizon);
    LeaseDecidesNothing(w.table.job, Lease(token, w.now + 1), w.now, p);
    DecideAndDelete(Run(w, [Grab(0, token, 1)], horizon), p, queued, horizon);
  }

  lemma Submits(w: World, horizon: Time) returns (schedule: seq<Action>)
    requires Good(w) && Unstarted(w.table.job)
    ensures var w' := Run(w, schedule, horizon);
            w'.requests == w.requests + 1 && !Unstarted(w'.table.job) && |w'.table.attempts| == 1
  {
    hide Good, Enabled, Do, Run, Inv;
    var pause := Rest(w, horizon);
    var w1 := Run(w, pause, horizon);
    var token := Undrawn(w1.tokens);
    var task := Undrawn(w1.tasks);
    assert w1.table.attempts == [] by { NoneYet(w); }
    var rest := [Grab(0, token, 1), PrepareTask(0, task, "k")] + [BeginFirst(0, true), Send(0)];
    RunAppend(w1, [Grab(0, token, 1), PrepareTask(0, task, "k")], [BeginFirst(0, true), Send(0)], horizon);
    Two(w1, Grab(0, token, 1), PrepareTask(0, task, "k"), horizon);
    Granted(w1, 0, token, horizon);
    var w2 := Next(w1, Grab(0, token, 1), horizon);
    Prepared(w2, token, task, horizon);
    var w3 := Next(w2, PrepareTask(0, task, "k"), horizon);
    Two(w3, BeginFirst(0, true), Send(0), horizon);
    Leaves(w3, token, horizon);
    RunAppend(w, pause, rest, horizon);
    schedule := pause + rest;
  }

  /** A rejected job with a schedule, and attempts left to use it. */
  predicate Resendable(t: Table) {
    && t.job.nextAction == Some(SubmitPruna) && t.job.retryAt.Some? && t.job.authHold.None?
    && |t.attempts| < PRUNA_SUBMIT_LIMIT
  }

  lemma Waited(w: World, horizon: Time) returns (pause: seq<Action>)
    requires w.table.job.retryAt.Some?
    ensures var w1 := Run(w, pause, horizon);
            && Rested(w1, 0) && w1 == w.(now := w1.now, workers := w1.workers)
            && w.table.job.retryAt.value <= w1.now
  {
    hide Enabled, Do, Run;
    var first := Rest(w, horizon);
    var w1 := Run(w, first, horizon);
    var later := if w1.now < w.table.job.retryAt.value then w.table.job.retryAt.value else w1.now;
    Ticks(w1, later, horizon);
    RunAppend(w, first, [Tick(later)], horizon);
    pause := first + [Tick(later)];
  }

  lemma Ticks(w: World, later: Time, horizon: Time)
    requires w.now <= later
    ensures Run(w, [Tick(later)], horizon) == w.(now := later)
  {
    Then(w, [], Tick(later), horizon);
    assert [] + [Tick(later)] == [Tick(later)];
    hide Applies, DeletionAllowed, BeginSubmissionAllowed, BeginRetryAllowed, AllowedToOthers;
  }

  lemma GrantedAgain(w: World, token: Token, horizon: Time)
    requires Rested(w, 0) && NotAcceptedPending(w.table.job) && w.table.job.retryAt.Some? && token !in w.tokens
    ensures var w1, j := Next(w, GrabScheduled(0, token, 1), horizon), w.table.job;
            && w1.table == Table(j.(lease := Some(Lease(token, w.now + 1)), updatedAt := w.now), w.table.attempts)
            && Of(w1, 0) == Holding(token)
            && w1 == w.(table := w1.table, tokens := w.tokens + {token}, workers := w1.workers)
  {
    hide DeletionAllowed, AllowedToOthers;
  }

  lemma Resends(w: World, horizon: Time) returns (schedule: seq<Action>)
    requires Good(w) && Resendable(w.table)
    ensures var w' := Run(w, schedule, horizon);
            w'.requests == w.requests + 1 && |w'.table.attempts| == |w.table.attempts| + 1
  {
    hide Good, Enabled, Do, Run, Inv;
    var pause := Waited(w, horizon);
    var w1 := Run(w, pause, horizon);
    var token := Undrawn(w1.tokens);
    var task := Undrawn(w1.tasks);
    var rest := [GrabScheduled(0, token, 1)] + [BeginAgain(0, task, true), Send(0)];
    ResendableIsPending(w);
    Then(w1, [], GrabScheduled(0, token, 1), horizon);
    assert [] + [GrabScheduled(0, token, 1)] == [GrabScheduled(0, token, 1)];
    assert Run(w1, [], horizon) == w1 by { NoAction(w1, horizon); }
    RunAppend(w1, [GrabScheduled(0, token, 1)], [BeginAgain(0, task, true), Send(0)], horizon);
    GrantedAgain(w1, token, horizon);
    var w2 := Next(w1, GrabScheduled(0, token, 1), horizon);
    Two(w2, BeginAgain(0, task, true), Send(0), horizon);
    RetryAllowed(w, w2, token, task, horizon);
    LeavesAgain(w2, token, task, horizon);
    RunAppend(w, pause, rest, horizon);
    schedule := pause + rest;
  }

  lemma NoAction(w: World, horizon: Time)
    ensures Run(w, [], horizon) == w
  {}

  lemma ResendableIsPending(w: World)
    requires Good(w) && Resendable(w.table)
    ensures NotAcceptedPending(w.table.job) && w.table.attempts != [] && w.table.job.taskUuid.Some?
  {
    hide ResultFits, OneImageSource, Keyed, Bounded, TokensInv, TasksInv, DecisionsInv;
  }

  lemma LeaseSaysNothing(t: Table, t': Table)
    requires Inv(t) && t.job.nextAction == Some(SubmitPruna)
    requires t' == Table(t.job.(lease := t'.job.lease, updatedAt := t'.job.updatedAt), t.attempts)
    ensures Inv(t')
  {
    hide ValidKey, WellFormed;
  }

  /** Only the lease stands between the row as it was and the retry. */
  lemma RetryAllowed(w: World, w2: World, token: Token, task: TaskId, horizon: Time)
    requires Good(w) && Resendable(w.table) && w.table.job.taskUuid.Some?
    requires w2.table == Table(w.table.job.(lease := w2.table.job.lease, updatedAt := w2.table.job.updatedAt),
                               w.table.attempts)
    requires LeaseValid(w2.table.job, token, w2.now) && w.table.job.retryAt.value <= w2.now && task !in w.tasks
    ensures BeginRetryAllowed(w2.table, token, w.table.job.taskUuid.value, task, true, w2.now)
  {
    LeaseSaysNothing(w.table, w2.table);
    hide TokensInv, DecisionsInv, Inv, BeginRetryAllowed;
    Guards.RetryExactly(w2.table, token, w.table.job.taskUuid.value, task, true, w2.now, horizon);
  }

  lemma LeavesAgain(w: World, token: Token, task: TaskId, horizon: Time)
    requires Of(w, 0) == Holding(token) && w.table.job.taskUuid.Some? && task !in w.tasks
    requires BeginRetryAllowed(w.table, token, w.table.job.taskUuid.value, task, true, w.now)
    ensures var w' := Next(Next(w, BeginAgain(0, task, true), horizon), Send(0), horizon);
            w'.requests == w.requests + 1 && |w'.table.attempts| == |w.table.attempts| + 1
  {
    hide DeletionAllowed, AllowedToOthers, BeginSubmissionAllowed;
  }

  lemma NoneYet(w: World)
    requires Good(w) && Unstarted(w.table.job)
    ensures w.table.attempts == []
  {}

  lemma Prepared(w: World, token: Token, task: TaskId, horizon: Time)
    requires Of(w, 0) == Holding(token) && Unstarted(w.table.job) && task !in w.tasks
    requires LeaseValid(w.table.job, token, w.now) && w.table.attempts == []
    ensures var w' := Next(w, PrepareTask(0, task, "k"), horizon);
            && Of(w', 0) == Holding(token) && Unstarted(w'.table.job) && w'.table.job.taskUuid.Some?
            && LeaseValid(w'.table.job, token, w'.now) && w'.table.attempts == [] && w'.requests == w.requests
  {
    PlainKey();
    hide ValidKey, DeletionAllowed, AllowedToOthers;
  }

  lemma Leaves(w: World, token: Token, horizon: Time)
    requires Of(w, 0) == Holding(token) && Unstarted(w.table.job) && w.table.job.taskUuid.Some?
    requires LeaseValid(w.table.job, token, w.now) && w.table.attempts == []
    ensures var w' := Next(Next(w, BeginFirst(0, true), horizon), Send(0), horizon);
            w'.requests == w.requests + 1 && !Unstarted(w'.table.job) && |w'.table.attempts| == 1
  {
    hide DeletionAllowed, AllowedToOthers, BeginRetryAllowed;
  }

  /** Wherever a run may have led, nothing is stuck: a job that was never submitted, or whose first submission was
      undone, can still be submitted, a rejected one with a schedule can still be sent again, and a message that may be
      deleted can still be deleted without a further request. */
  lemma NothingIsStuck(id: int, fingerprint: string, now: Time, before: seq<Action>, p: Paths, queued: bool,
                       horizon: Time)
    returns (sending: seq<Action>, deleting: seq<Action>)
    ensures var start := Start(id, fingerprint, now);
            var w := Run(start, before, horizon);
            && (Unstarted(w.table.job) || Resendable(w.table) ==>
                  var w' := Run(start, before + sending, horizon);
                  w'.requests == w.requests + 1 && |w'.table.attempts| == |w.table.attempts| + 1)
            && (MayGo(w.table.job, p, queued) ==>
                  var w' := Run(start, before + deleting, horizon); w'.deleted && w'.requests == w.requests)
  {
    hide Good, Enabled, Do, Run, Inv, MayGo;
    var start := Start(id, fingerprint, now);
    RunKeeps(id, fingerprint, now, before, horizon);
    var w := Run(start, before, horizon);
    sending, deleting := [], [];
    if Unstarted(w.table.job) {
      NoneYet(w);
      sending := Submits(w, horizon);
    } else if Resendable(w.table) {
      sending := Resends(w, horizon);
    }
    if MayGo(w.table.job, p, queued) { deleting := Deletes(w, p, queued, horizon); }
    RunAppend(start, before, sending, horizon);
    RunAppend(start, before, deleting, horizon);
  }

  // ----- why a message goes -----

  /** What a deletion may rest on: the row as it was read, and what was up then. */
  predicate Grounds(j: Job, a: Action) {
    match a
    case Receive(_) => (j.status == Completed || j.status == Failed) && j.messageStatus == Published
    case Decide(_, paths, queued) => MayGo(j, paths, queued)
    case _ => false
  }

  ghost predicate Going(w: World) { w.deleted || exists i: nat :: Of(w, i).MayDelete? }

  lemma GoingHasGrounds(w: World, a: Action, horizon: Time)
    requires Enabled(w, a, horizon) && Going(Do(w, a, horizon)) && !Going(w)
    ensures Grounds(w.table.job, a)
  {
    hide DeletionAllowed, Step, Applies, BeginSubmissionAllowed, BeginRetryAllowed, AllowedToOthers;
    var w' := Do(w, a, horizon);
    if !w'.deleted {
      var i: nat :| Of(w', i).MayDelete?;
      assert !Of(w, i).MayDelete?;
    }
  }

  /** No message goes without grounds: a worker read the row of a finished job, or of one somebody up at that moment
      carries on, or the fallback's own message had been queued. */
  lemma {:induction false} DeletionsHaveGrounds(id: int, fingerprint: string, now: Time, schedule: seq<Action>,
                                                horizon: Time)
    requires Going(Run(Start(id, fingerprint, now), schedule, horizon))
    ensures exists k :: 0 <= k < |schedule|
                        && Grounds(Run(Start(id, fingerprint, now), schedule[..k], horizon).table.job, schedule[k])
  {
    hide Enabled, Do, Grounds;
    var start := Start(id, fingerprint, now);
    if schedule != [] {
      var n := |schedule| - 1;
      var before := Run(start, schedule[..n], horizon);
      if Going(before) {
        DeletionsHaveGrounds(id, fingerprint, now, schedule[..n], horizon);
        var k :| 0 <= k < n && Grounds(Run(start, schedule[..n][..k], horizon).table.job, schedule[..n][k]);
        assert schedule[..n][..k] == schedule[..k];
        assert Grounds(Run(start, schedule[..k], horizon).table.job, schedule[k]);
      } else {
        GoingHasGrounds(before, schedule[n], horizon);
      }
    }
  }
}
