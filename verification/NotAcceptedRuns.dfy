/** Confirmed "not accepted": one record per attempt, four attempts per job, and who may schedule the next one. */
module NotAcceptedRuns {
  import opened Basics
  import opened Jobs
  import opened Transitions
  import opened RowInvariant

  /** One report about an attempt: from the submit response, the webhook or a status query. */
  datatype Report = Report(code: string, source: Source, retryAfter: Option<nat>, unrepresentable: bool, at: Time)

  function Record(t: Table, task: TaskId, r: Report, horizon: Time): Table {
    NotAcceptedStep(t, task, r.code, r.source, r.retryAfter, r.unrepresentable, r.at, horizon).0
  }

  function Outcome(t: Table, task: TaskId, r: Report, horizon: Time): NotAcceptedOutcome {
    NotAcceptedStep(t, task, r.code, r.source, r.retryAfter, r.unrepresentable, r.at, horizon).1
  }

  function RecordAll(t: Table, task: TaskId, reports: seq<Report>, horizon: Time): Table
    decreases reports
  {
    if reports == [] then t else RecordAll(Record(t, task, reports[0], horizon), task, reports[1..], horizon)
  }

  /** A report that was handled is handled: any further one about the same attempt changes nothing. */
  lemma SecondReportChangesNothing(t: Table, task: TaskId, a: Report, b: Report, horizon: Time)
    requires Inv(t)
    ensures var t' := Record(t, task, a, horizon); Record(t', task, b, horizon) == t'
  {
    hide Legal, RetryTime, RejectedPayload;
    var j := t.job;
    if j.taskUuid == Some(task) && j.submitStartedAt.Some? {
      CurrentIsLast(t, task);
      var w := KnownAttempts(t, task);
      var i := |w| - 1;
      JudgedAgain(j, w, a, b, horizon);
    }
  }

  /** Judging the current attempt leaves it the last one, under the same task. */
  lemma JudgedStaysLast(j: Job, w: seq<Attempt>, a: Report, horizon: Time)
    requires w != [] && Lined(Table(j, w)) && j.submitStartedAt.Some? && j.taskUuid == Some(w[|w| - 1].task)
    ensures var t' := Judged(j, w, |w| - 1, a.code, a.source, a.retryAfter, a.unrepresentable, a.at, horizon).0;
            && |t'.attempts| == |w| && t'.job.taskUuid == j.taskUuid && t'.job.submitStartedAt == j.submitStartedAt
            && Find(t'.attempts, w[|w| - 1].task) == |w| - 1
  {
    hide RetryTime, RejectedPayload;
    var t' := Judged(j, w, |w| - 1, a.code, a.source, a.retryAfter, a.unrepresentable, a.at, horizon).0;
    assert forall k :: 0 <= k < |w| ==> t'.attempts[k].task == w[k].task;
    FindAt(t'.attempts, |w| - 1);
  }

  lemma JudgedAgain(j: Job, w: seq<Attempt>, a: Report, b: Report, horizon: Time)
    requires w != [] && Lined(Table(j, w)) && j.submitStartedAt.Some? && j.taskUuid == Some(w[|w| - 1].task)
    ensures var t' := Judged(j, w, |w| - 1, a.code, a.source, a.retryAfter, a.unrepresentable, a.at, horizon).0;
            && t'.attempts != [] && t'.job.taskUuid == j.taskUuid && t'.job.submitStartedAt == j.submitStartedAt
            && Find(t'.attempts, w[|w| - 1].task) == |w| - 1 == |t'.attempts| - 1
            && Judged(t'.job, t'.attempts, |w| - 1, b.code, b.source, b.retryAfter, b.unrepresentable, b.at, horizon).0
               == t'
  {
    hide RetryTime, RejectedPayload, Lined;
    JudgedStaysLast(j, w, a, horizon);
  }

  /** Any number of reports about one attempt, in any order and from any source, have the effect of the first alone. */
  lemma {:induction false} OneRecordPerAttempt(t: Table, task: TaskId, reports: seq<Report>, horizon: Time)
    requires Inv(t) && reports != []
    ensures RecordAll(t, task, reports, horizon) == Record(t, task, reports[0], horizon)
    decreases |reports|
  {
    if |reports| > 1 {
      var rest := [reports[0]] + reports[2..];
      SecondReportChangesNothing(t, task, reports[0], reports[1], horizon);
      hide NotAcceptedStep, Inv;
      OneRecordPerAttempt(t, task, rest, horizon);
      assert rest[1..] == reports[2..] == reports[1..][1..];
    }
  }

  lemma ReportJudgesLast(t: Table, r: Report, horizon: Time)
    requires Inv(t) && t.attempts != []
    ensures var n := |t.attempts| - 1;
            NotAcceptedStep(t, t.attempts[n].task, r.code, r.source, r.retryAfter, r.unrepresentable, r.at, horizon)
            == Judged(t.job, t.attempts, n, r.code, r.source, r.retryAfter, r.unrepresentable, r.at, horizon)
  {
    FindAt(t.attempts, |t.attempts| - 1);
  }

  /** When the next request may leave: at the server's hint, or 10, 20 and 40 seconds after the first three attempts. */
  function Due(no: int, r: Report): Time {
    r.at + (if r.retryAfter.Some? then r.retryAfter.value
            else if no == 1 then 10 * SECOND else if no == 2 then 20 * SECOND else 40 * SECOND)
  }

  /** What the first report about the current attempt does to the job, outcome by outcome. */
  predicate Handled(t: Table, r: Report, t': Table, outcome: NotAcceptedOutcome, horizon: Time) {
    var n := |t.attempts|;
    match outcome
    case Scheduled =>
      n < PRUNA_SUBMIT_LIMIT && t'.job.retryAt == Some(Due(n, r)) && t'.job.payload.None? && Due(n, r) <= horizon
    case HeldBack =>
      && n < PRUNA_SUBMIT_LIMIT && t'.job.retryAt.None? && t'.job.payload.None?
      && (r.unrepresentable || Due(n, r) > horizon)
    case Exhausted =>
      && n == PRUNA_SUBMIT_LIMIT && t'.job.retryAt.None? && t'.job.nextAction == Some(PublishResult)
      && t'.job.payload == Some(RejectedPayload(t.job.id))
    case Contradicted =>
      && (t.job.acceptedAt.Some? || t.job.status != Received) && t'.job == t.job
      && t'.attempts != [] && t'.attempts[|t'.attempts| - 1].conflict.Some?
    case AlreadyRecorded => t' == t
    case StateMismatch => t' == t
    case _ => false
  }

  lemma FirstReport(t: Table, r: Report, horizon: Time)
    requires Inv(t) && t.attempts != []
    ensures var task := t.attempts[|t.attempts| - 1].task;
            Handled(t, r, Record(t, task, r, horizon), Outcome(t, task, r, horizon), horizon)
  {
    ReportJudgesLast(t, r, horizon);
    hide NotAcceptedStep, RejectedPayload;
  }

  // ----- attempts over runs -----

  /** What holds of the attempts besides their order. */
  predicate Paced(t: Table, hints: bool) {
    && (forall i :: 0 <= i < |t.attempts| ==> Waits(t.attempts[i], hints))
    && (forall i :: 0 <= i < |t.attempts| - 1 ==>
          t.attempts[i].nextAt.Some? && t.attempts[i].nextAt.value <= t.attempts[i + 1].startedAt)
  }

  predicate Waits(a: Attempt, hints: bool) {
    a.nextAt.Some? ==>
      && a.no < PRUNA_SUBMIT_LIMIT && a.notAccepted.Some? && a.notAccepted.value.at <= a.nextAt.value
      && (!hints ==> a.nextAt.value == a.notAccepted.value.at + RetryDelay(a.no, None))
  }

  /** A conflict mark is on an attempt that was recorded as not accepted, or the job has moved on. */
  predicate MarksFit(t: Table) {
    forall a <- t.attempts :: a.conflict.Some? ==>
      a.notAccepted.Some? || t.job.acceptedAt.Some? || t.job.verified.Some? || t.job.status != Received
  }

  /** What was recorded about an attempt stays: a is an earlier, b a later list of attempts. */
  predicate RecordsStay(a: seq<Attempt>, b: seq<Attempt>) {
    forall i :: 0 <= i < |a| && a[i].notAccepted.Some? ==>
      && i < |b| && b[i].no == a[i].no && b[i].task == a[i].task && b[i].startedAt == a[i].startedAt
      && b[i].notAccepted == a[i].notAccepted && b[i].nextAt == a[i].nextAt && Kept(a[i].conflict, b[i].conflict)
  }

  predicate Hinted(c: Command) {
    c.AttemptCall? && c.attempt.NotAcceptedReport? && c.attempt.retryAfter.Some?
  }

  predicate Advanced(t: Table, t': Table, hints: bool) {
    Paced(t', hints) && MarksFit(t') && RecordsStay(t.attempts, t'.attempts)
  }

  lemma ReportAdvances(t: Table, task: TaskId, r: Report, hints: bool, horizon: Time)
    requires Inv(t) && Paced(t, hints) && MarksFit(t) && (hints || r.retryAfter.None?)
    ensures Advanced(t, Record(t, task, r, horizon), hints)
  {
    hide Legal, RejectedPayload, Judged;
    if t.job.taskUuid == Some(task) && t.job.submitStartedAt.Some? {
      CurrentIsLast(t, task);
      var w := KnownAttempts(t, task);
      JudgedAdvances(t.job, w, r, hints, horizon);
    }
  }

  lemma JudgedAdvances(j: Job, w: seq<Attempt>, r: Report, hints: bool, horizon: Time)
    requires w != [] && Paced(Table(j, w), hints) && MarksFit(Table(j, w)) && (hints || r.retryAfter.None?)
    ensures Advanced(Table(j, w),
                     Judged(j, w, |w| - 1, r.code, r.source, r.retryAfter, r.unrepresentable, r.at, horizon).0, hints)
  {
    hide RejectedPayload;
  }

  /** Only the conflict mark of one recorded attempt may differ. */
  predicate Marked(a: seq<Attempt>, b: seq<Attempt>) {
    && |b| == |a|
    && forall i :: 0 <= i < |a| ==>
         b[i] == a[i].(conflict := b[i].conflict) && Kept(a[i].conflict, b[i].conflict)
         && (b[i] != a[i] ==> a[i].notAccepted.Some?)
  }

  lemma ContradictionMarks(t: Table, task: TaskId, reason: string, now: Time)
    ensures var t' := ContradictionStep(t, task, reason, now);
            Marked(t.attempts, t'.attempts) && SameProgress(t.job, t'.job)
  {}

  lemma MarkedAdvances(t: Table, t': Table, hints: bool)
    requires Paced(t, hints) && MarksFit(t) && Marked(t.attempts, t'.attempts) && SameProgress(t.job, t'.job)
    ensures Advanced(t, t', hints)
  {}

  lemma ContradictionAdvances(t: Table, task: TaskId, reason: string, now: Time, hints: bool)
    requires Paced(t, hints) && MarksFit(t)
    ensures Advanced(t, ContradictionStep(t, task, reason, now), hints)
  {
    hide Paced, MarksFit, ContradictionStep, Marked, Advanced, SameProgress;
    ContradictionMarks(t, task, reason, now);
    MarkedAdvances(t, ContradictionStep(t, task, reason, now), hints);
  }

  predicate SameProgress(j: Job, j': Job) {
    j'.acceptedAt == j.acceptedAt && j'.verified == j.verified && j'.status == j.status
  }

  lemma AppendAdvances(t: Table, j: Job, a: Attempt, hints: bool)
    requires Paced(t, hints) && MarksFit(t) && SameProgress(t.job, j)
    requires a.notAccepted.None? && a.nextAt.None? && a.conflict.None?
    requires t.attempts != [] ==>
               var last := t.attempts[|t.attempts| - 1]; last.nextAt.Some? && last.nextAt.value <= a.startedAt
    ensures Advanced(t, Table(j, t.attempts + [a]), hints)
  {}

  lemma PrefixAdvances(t: Table, j: Job, hints: bool)
    requires Paced(t, hints) && MarksFit(t) && SameProgress(t.job, j)
    requires t.attempts != [] && t.attempts[|t.attempts| - 1].notAccepted.None?
    ensures Advanced(t, Table(j, t.attempts[..|t.attempts| - 1]), hints)
  {}

  lemma BeginAdvances(c: AttemptCommand, t: Table, now: Time, horizon: Time, hints: bool)
    requires Inv(t) && Paced(t, hints) && MarksFit(t) && (c.BeginSubmission? || c.BeginRetry?)
    ensures Advanced(t, AttemptStep(c, t, now, horizon), hints)
  {
    var t' := AttemptStep(c, t, now, horizon);
    if t' != t {
      if c.BeginRetry? {
        RetryFollowsLast(t, c.token, c.previous, c.task, c.slot, now);
      } else {
        assert t.attempts == [];
      }
      hide Legal, Paced, MarksFit, Advanced;
      AppendAdvances(t, t'.job, t'.attempts[|t.attempts|], hints);
    }
  }

  lemma CancelAdvances(t: Table, token: Token, task: TaskId, now: Time, hints: bool)
    requires Inv(t) && Paced(t, hints) && MarksFit(t) && Honest(AttemptCall(CancelUnsent(token, task)), t)
    requires CancelAllowed(t, token, task, now)
    ensures Advanced(t, CancelStep(t, task, now), hints)
  {
    hide Legal, Paced, MarksFit, Advanced;
    var t' := CancelStep(t, task, now);
    if t.attempts != [] {
      FindAt(t.attempts, |t.attempts| - 1);
      WithoutLast(t.attempts, task);
      PrefixAdvances(t, t'.job, hints);
    } else {
      SameAdvances(t, t'.job, hints);
    }
  }

  lemma SameAdvances(t: Table, j: Job, hints: bool)
    requires Paced(t, hints) && MarksFit(t)
    requires SameProgress(t.job, j) || Evolves(t.job, j)
    ensures Advanced(t, Table(j, t.attempts), hints)
  {}

  lemma StepAdvances(c: Command, t: Table, now: Time, horizon: Time, hints: bool)
    requires Inv(t) && Paced(t, hints) && MarksFit(t) && Honest(c, t) && (hints || !Hinted(c))
    ensures Advanced(t, Step(c, t, now, horizon), hints)
  {
    StepKeepsInvariant(c, t, now, horizon);
    hide Inv, Evolves, Advanced, Paced, MarksFit;
    hide RowStep, NotAcceptedStep, ContradictionStep, CancelStep, CancelAllowed;
    match c
    case AttemptCall(NotAcceptedReport(task, code, source, retryAfter, unrepresentable)) =>
      ReportAdvances(t, task, Report(code, source, retryAfter, unrepresentable, now), hints, horizon);
    case AttemptCall(Contradiction(task, reason)) => ContradictionAdvances(t, task, reason, now, hints);
    case AttemptCall(CancelUnsent(token, task)) =>
      if CancelAllowed(t, token, task, now) { CancelAdvances(t, token, task, now, hints); }
      else { SameAdvances(t, t.job, hints); }
    case AttemptCall(a) => BeginAdvances(a, t, now, horizon, hints);
    case _ => SameAdvances(t, Step(c, t, now, horizon).job, hints);
  }

  lemma RecordsStayTransitive(a: seq<Attempt>, b: seq<Attempt>, c: seq<Attempt>)
    requires RecordsStay(a, b) && RecordsStay(b, c)
    ensures RecordsStay(a, c)
  {}

  lemma {:induction false} RunAdvances(t: Table, calls: seq<Call>, horizon: Time, hints: bool)
    requires Inv(t) && Paced(t, hints) && MarksFit(t) && Lawful(t, calls, horizon)
    requires hints || forall call <- calls :: !Hinted(call.command)
    ensures Advanced(t, Run(t, calls, horizon), hints)
    decreases |calls|
  {
    hide Inv, Step, Honest, Lawful, Paced, MarksFit, Hinted;
    if calls == [] {
    } else {
      var n := |calls| - 1;
      assert forall call <- calls[..n] :: call in calls;
      assert calls[n] in calls;
      LawfulPrefix(t, calls, horizon);
      RunAdvances(t, calls[..n], horizon, hints);
      RunKeepsInvariant(t, calls[..n], horizon);
      var before := Run(t, calls[..n], horizon);
      StepAdvances(calls[n].command, before, calls[n].at, horizon, hints);
      RecordsStayTransitive(t.attempts, before.attempts, Run(t, calls, horizon).attempts);
    }
  }

  /** Over every run of a job: four attempts at the most, each of them made only when the one before allowed it. */
  lemma AttemptsOverRuns(id: int, fingerprint: string, start: Time, calls: seq<Call>, horizon: Time)
    requires Lawful(Table(NewJob(id, fingerprint, start), []), calls, horizon)
    ensures var a := Run(Table(NewJob(id, fingerprint, start), []), calls, horizon).attempts;
            && |a| <= PRUNA_SUBMIT_LIMIT
            && forall i :: 0 <= i < |a| - 1 ==>
                 && a[i].notAccepted.Some? && a[i].nextAt.Some?
                 && a[i].notAccepted.value.at <= a[i].nextAt.value <= a[i + 1].startedAt
                 && ((forall call <- calls :: !Hinted(call.command)) ==>
                       a[i + 1].startedAt >= a[i].notAccepted.value.at + RetryDelay(i + 1, None))
  {
    hide Lawful, Run, Legal, Hinted;
    var t := Table(NewJob(id, fingerprint, start), []);
    InitInvariant(id, fingerprint, start);
    RunKeepsInvariant(t, calls, horizon);
    RunAdvances(t, calls, horizon, true);
    var a := Run(t, calls, horizon).attempts;
    if |a| > 0 { assert a[|a| - 1].no == |a|; }
    if forall call <- calls :: !Hinted(call.command) { RunAdvances(t, calls, horizon, false); }
    assert forall i :: 0 <= i < |a| ==> a[i].no == i + 1;
    forall i | 0 <= i < |a| - 1
      ensures a[i].nextAt.Some? && a[i].notAccepted.Some? && a[i].no == i + 1
    {}
  }

  /** A record of "not accepted" is never rewritten, whatever calls follow. */
  lemma RecordedForGood(t: Table, calls: seq<Call>, horizon: Time, i: nat)
    requires Inv(t) && Paced(t, true) && MarksFit(t) && Lawful(t, calls, horizon)
    requires i < |t.attempts| && t.attempts[i].notAccepted.Some?
    ensures var after := Run(t, calls, horizon).attempts;
            && i < |after| && after[i].task == t.attempts[i].task
            && after[i].notAccepted == t.attempts[i].notAccepted && after[i].nextAt == t.attempts[i].nextAt
  {
    RunAdvances(t, calls, horizon, true);
  }

  // ----- contradictions -----

  /** The job is scheduled to be sent again although its latest attempt is marked as contradicted. */
  predicate ContradictedButScheduled(t: Table) {
    && At(t.job, Received, SubmitPruna) && t.job.retryAt.Some?
    && t.attempts != [] && t.attempts[|t.attempts| - 1].conflict.Some?
  }

  /** A contradiction on record keeps a job from being sent again, except when undoing an unsent later attempt brings
      the contradicted one back. */
  lemma ContradictedRescheduledExactly(c: Command, t: Table, now: Time, horizon: Time)
    requires Inv(t) && MarksFit(t) && Honest(c, t) && !ContradictedButScheduled(t)
    ensures ContradictedButScheduled(Step(c, t, now, horizon)) <==>
              && c.AttemptCall? && c.attempt.CancelUnsent? && Applies(c, t, now, horizon)
              && At(t.job, Received, SubmitPruna)
              && |t.attempts| >= 2 && t.attempts[|t.attempts| - 2].conflict.Some?
  {
    hide Legal, NotAcceptedStep, ContradictionStep, CancelStep, RowStep, Honest, LeaseValid;
    StepKeepsInvariant(c, t, now, horizon);
    match c
    case AttemptCall(NotAcceptedReport(task, code, source, retryAfter, unrepresentable)) =>
      ReportSchedulesUnmarked(t, task, Report(code, source, retryAfter, unrepresentable, now), horizon);
    case AttemptCall(Contradiction(task, reason)) => ContradictionHolds(t, task, reason, now);
    case AttemptCall(CancelUnsent(token, task)) =>
      if CancelAllowed(t, token, task, now) { CancelRestores(t, token, task, now); }
    case AttemptCall(a) =>
    case _ => RowStepKeepsSubmission(c, t.job, now);
  }

  lemma ReportSchedulesUnmarked(t: Table, task: TaskId, r: Report, horizon: Time)
    requires Inv(t) && MarksFit(t) && !ContradictedButScheduled(t)
    ensures !ContradictedButScheduled(Record(t, task, r, horizon))
  {
    hide Legal, RejectedPayload, RetryTime;
    if t.job.taskUuid == Some(task) && t.job.submitStartedAt.Some? { CurrentIsLast(t, task); }
  }

  lemma ContradictionHolds(t: Table, task: TaskId, reason: string, now: Time)
    requires Inv(t) && !ContradictedButScheduled(t)
    ensures !ContradictedButScheduled(ContradictionStep(t, task, reason, now))
  {}

  lemma CancelRestores(t: Table, token: Token, task: TaskId, now: Time)
    requires Inv(t) && CancelAllowed(t, token, task, now)
    ensures ContradictedButScheduled(CancelStep(t, task, now)) <==>
              At(t.job, Received, SubmitPruna) && |t.attempts| >= 2 && t.attempts[|t.attempts| - 2].conflict.Some?
  {
    hide Legal;
    var n := |t.attempts| - 1;
    if n >= 0 {
      FindAt(t.attempts, n);
      NumberedAt(t.attempts, n);
      WithoutLast(t.attempts, task);
    }
  }

  /** A first attempt rejected after a second, a retry granted ten seconds later, a contradiction, and the undo. */
  function ContradictedRun(): seq<Call> {
    FirstRun() + [Call(AttemptCall(NotAcceptedReport(1, "c", Webhook, None, false)), SECOND)]
    + [Call(AttemptCall(BeginRetry(1, 1, 2, true)), 11 * SECOND)]
    + [Call(AttemptCall(Contradiction(1, "r")), 12 * SECOND)] + [Call(AttemptCall(CancelUnsent(1, 2)), 13 * SECOND)]
  }

  lemma RetryGranted(horizon: Time) returns (t: Table)
    requires 11 * SECOND <= horizon
    ensures var calls := FirstRun() + [Call(AttemptCall(NotAcceptedReport(1, "c", Webhook, None, false)), SECOND)]
                         + [Call(AttemptCall(BeginRetry(1, 1, 2, true)), 11 * SECOND)];
            Lawful(Created(7, "", 0), calls, horizon) && Run(Created(7, "", 0), calls, horizon) == t
    ensures t.attempts == [Attempt(1, 1, 0, Some(NotAccepted("c", Webhook, SECOND)), Some(11 * SECOND), None),
                           Attempt(2, 2, 11 * SECOND, None, None, None)]
    ensures t.job == FirstSubmitted().job.(taskUuid := Some(2), submitStartedAt := Some(11 * SECOND),
                                           updatedAt := 11 * SECOND)
  {
    hide Run, Lawful;
    var start, calls := Created(7, "", 0), FirstRun();
    FirstRunSubmits(horizon);
    var report := Call(AttemptCall(NotAcceptedReport(1, "c", Webhook, None, false)), SECOND);
    var retry := Call(AttemptCall(BeginRetry(1, 1, 2, true)), 11 * SECOND);
    LawfulMore(start, calls, report, horizon);
    LawfulMore(start, calls + [report], retry, horizon);
    t := Run(start, calls + [report] + [retry], horizon);
  }

  /** It does happen: attempt 2 is granted but not sent when attempt 1 turns out to have been taken after all. */
  lemma ContradictedYetRescheduled(horizon: Time)
    requires 11 * SECOND <= horizon
    ensures Lawful(Created(7, "", 0), ContradictedRun(), horizon)
    ensures ContradictedButScheduled(Run(Created(7, "", 0), ContradictedRun(), horizon))
  {
    hide Run, Lawful, Legal;
    var start := Created(7, "", 0);
    var calls := FirstRun() + [Call(AttemptCall(NotAcceptedReport(1, "c", Webhook, None, false)), SECOND)]
                 + [Call(AttemptCall(BeginRetry(1, 1, 2, true)), 11 * SECOND)];
    var report, undo := Call(AttemptCall(Contradiction(1, "r")), 12 * SECOND),
                        Call(AttemptCall(CancelUnsent(1, 2)), 13 * SECOND);
    var t := RetryGranted(horizon);
    assert Find(t.attempts, 1) == 0;
    LawfulMore(start, calls, report, horizon);
    var t1 := ContradictionStep(t, 1, "r", 12 * SECOND);
    assert Find(t1.attempts, 2) == 1;
    LawfulMore(start, calls + [report], undo, horizon);
    InitInvariant(7, "", 0);
    RunKeepsInvariant(start, calls + [report], horizon);
    CancelRestores(t1, 1, 2, 13 * SECOND);
  }

  /** The attempt made with this task is on record as not accepted. */
  predicate RecordedNotAccepted(attempts: seq<Attempt>, task: TaskId) {
    exists i :: 0 <= i < |attempts| && attempts[i].task == task && attempts[i].notAccepted.Some?
  }

  /** A report about an attempt that is no longer the current one leaves the current one alone; a contradiction only
      takes back a schedule that has not been acted on. */
  lemma LateReports(t: Table, task: TaskId, r: Report, reason: string, now: Time, horizon: Time)
    requires Inv(t) && t.job.taskUuid != Some(task)
    ensures Record(t, task, r, horizon) == t
    ensures Outcome(t, task, r, horizon)
         == if exists a <- t.attempts :: a.task == task then PastAttempt else UnknownTask
    ensures var t' := ContradictionStep(t, task, reason, now);
            && |t'.attempts| == |t.attempts|
            && (t.attempts != [] ==> t'.attempts[|t.attempts| - 1] == t.attempts[|t.attempts| - 1])
            && t'.job ==
                 if RecordedNotAccepted(t.attempts, task) && t.job.retryAt.Some? && At(t.job, Received, SubmitPruna)
                 then t.job.(retryAt := None, updatedAt := now) else t.job
  {
    hide Bounded, Progress, OneImageSource, ResultFits, Keyed, Judged, KnownAttempts;
    if RecordedNotAccepted(t.attempts, task) {
      var i :| 0 <= i < |t.attempts| && t.attempts[i].task == task && t.attempts[i].notAccepted.Some?;
      FindAt(t.attempts, i);
    }
    if a :| a in t.attempts && a.task == task {
      var i :| 0 <= i < |t.attempts| && t.attempts[i] == a;
      FindAt(t.attempts, i);
    }
  }

  /** A contradiction is recorded exactly on an attempt recorded as not accepted, and only the first of them stays. */
  lemma ContradictionExactly(t: Table, i: nat, reason: string, now: Time, horizon: Time)
    requires Inv(t) && i < |t.attempts|
    ensures var a := t.attempts[i];
            var c, t' := AttemptCall(Contradiction(a.task, reason)), ContradictionStep(t, a.task, reason, now);
            && (Applies(c, t, now, horizon) <==> a.notAccepted.Some?)
            && t'.attempts == t.attempts[i := if a.notAccepted.Some? && a.conflict.None?
                                              then a.(conflict := Some(Conflict(reason, now))) else a]
  {
    hide Bounded, Progress, OneImageSource, ResultFits;
    FindAt(t.attempts, i);
  }
}
