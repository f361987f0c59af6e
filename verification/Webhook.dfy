/** Handling of provider events about the current task: the first conclusive one decides, the rest change nothing. */
module Webhook {
  import opened Basics
  import opened Jobs
  import opened Transitions
  import opened RowInvariant
  import opened Repository

  /** A result for the current task; byQuery marks one read through an authenticated status query. */
  datatype Event =
    | Success(url: Option<string>, uuid: Option<nat>, byQuery: bool)
    | Recoverable
    | FinalFailure(payload: Payload)

  // ----- image references -----

  datatype RefResult = Stored | Absent | Same | Conflicting | Unconfirmed | NotStored

  /** How the references of a success event relate to the row: the check the handler makes before it tries to fill. */
  function ImageRefResult(url: Option<string>, uuid: Option<nat>, applied: bool, j: Job): RefResult {
    if url.None? && uuid.None? then Absent
    else if applied then Stored
    else if (url.Some? && j.imageUrl.Some? && j.imageUrl != url)
            || (uuid.Some? && j.imageUuid.Some? && j.imageUuid != uuid)
    then Conflicting
    else if (url.Some? && j.imageUrl.None?) || (uuid.Some? && j.imageUuid.None?) then
      var anchored := (url.Some? && j.imageUrl == url) || (uuid.Some? && j.imageUuid == uuid);
      if (j.imageUrl.Some? || j.imageUuid.Some?) && !anchored then Unconfirmed else NotStored
    else Same
  }

  predicate FillTried(e: Event, applied: bool, j: Job)
    requires e.Success?
  {
    var result := ImageRefResult(e.url, e.uuid, applied, j);
    && (result.NotStored? || (e.byQuery && j.aiStores && result.Unconfirmed?))
    && At(j, Postprocessing, Postprocess) && j.payload.None?
  }

  // ----- handling one event, with nothing else in between -----

  function CommandOf(e: Event): EventCommand {
    match e
    case Success(url, uuid, _) => Succeeded(url, uuid)
    case Recoverable => FailedRecoverable
    case FinalFailure(p) => FailedFinal(p)
  }

  const RESULT_CONFLICT := "result_after_not_accepted"

  function Handle(t: Table, task: TaskId, e: Event, now: Time, horizon: Time): Table {
    var c := EventCall(task, CommandOf(e));
    var applied := Applies(c, t, now, horizon);
    var t1 := Step(c, t, now, horizon);
    var t2 := if e.Success? && FillTried(e, applied, t1.job)
              then Step(EventCall(task, FillImageRef(e.url, e.uuid, e.byQuery && t1.job.aiStores)), t1, now, horizon)
              else t1;
    if applied && t.job.notAcceptedAt.Some? then ContradictionStep(t2, task, RESULT_CONFLICT, now) else t2
  }

  function HandleAll(t: Table, task: TaskId, events: seq<(Event, Time)>, horizon: Time): Table
    decreases events
  {
    if events == [] then t
    else HandleAll(Handle(t, task, events[0].0, events[0].1, horizon), task, events[1..], horizon)
  }

  /** The handler as it runs: read, record the state, fill late references, note a contradiction. */
  class WebhookProcessor {
    const state: AsyncJobStateRepository

    constructor (state: AsyncJobStateRepository)
      ensures this.state == state
    {
      this.state := state;
    }

    method Apply(task: TaskId, e: Event) returns (applied: bool)
      requires state.db.table.Some? && state.db.table.value.job.taskUuid == Some(task)
      modifies state.db`table
      ensures state.db.table == Some(Handle(old(state.db.table.value), task, e, state.db.clock, state.db.horizon))
      ensures applied ==
        Applies(EventCall(task, CommandOf(e)), old(state.db.table.value), state.db.clock, state.db.horizon)
      // an applied event leaves its decision on the row, a success with the very references it carries
      ensures applied ==> Decides(e, state.db.table.value.job)
    {
      AppliedDecides(state.db.table.value, task, e, state.db.clock, state.db.horizon);
      hide EventEffect, Stamped, EventGuard, EventAllowed, Decides;
      var before := state.db.table.value;
      var change;
      match e {
        case Success(url, uuid, byQuery) =>
          change := state.RecordPrunaSucceeded(task, url, uuid);
          var current := state.db.table.value.job;
          if FillTried(e, change.applied, current) {
            var _ := state.FillPrunaImageRef(task, url, uuid, byQuery && current.aiStores);
          }
        case Recoverable => change := state.RecordPrunaFailed(task, None);
        case FinalFailure(p) => change := state.RecordPrunaFailed(task, Some(p));
      }
      applied := change.applied;
      if applied && before.job.notAcceptedAt.Some? {
        var _ := state.RecordAttemptContradiction(task, RESULT_CONFLICT);
      }
    }
  }

  // ----- the first conclusive event wins -----

  lemma AppliedDecides(t: Table, task: TaskId, e: Event, now: Time, horizon: Time)
    ensures Applies(EventCall(task, CommandOf(e)), t, now, horizon) ==> Decides(e, Handle(t, task, e, now, horizon).job)
  {
    var c := EventCall(task, CommandOf(e));
    if Applies(c, t, now, horizon) {
      var t1 := Step(c, t, now, horizon);
      assert Decides(e, t1.job);
      StoredNotFilled(t, task, e, now, horizon);
      ContradictionKeepsDecision(t1, task, RESULT_CONFLICT, now, e);
    }
  }

  /** Nothing conclusive has been recorded and the current request has been sent. */
  predicate Open(j: Job, task: TaskId) { EventAllowed(j, task) && Undecided(j) }

  /** b differs from a in image references at most, and only where a had none. */
  predicate RefsOnly(a: Table, b: Table) {
    && b.attempts == a.attempts
    && b.job == a.job.(imageUrl := b.job.imageUrl, imageUuid := b.job.imageUuid)
    && Kept(a.job.imageUrl, b.job.imageUrl) && Kept(a.job.imageUuid, b.job.imageUuid)
  }

  /** The decision an event stands for. */
  predicate Decides(e: Event, j: Job) {
    match e
    case Success(url, uuid, _) =>
      At(j, Postprocessing, Postprocess) && j.payload.None? && j.imageUrl == url && j.imageUuid == uuid
    case Recoverable => At(j, FallbackRunning, RunFallback) && j.payload.None?
    case FinalFailure(p) => j.nextAction == Some(PublishResult) && j.payload == Some(p)
  }

  /** The decision still stands: references it came without may have been filled in since. */
  predicate Stands(e: Event, j: Job) {
    match e
    case Success(url, uuid, _) =>
      At(j, Postprocessing, Postprocess) && j.payload.None? && Kept(url, j.imageUrl) && Kept(uuid, j.imageUuid)
    case Recoverable => At(j, FallbackRunning, RunFallback) && j.payload.None?
    case FinalFailure(p) => j.nextAction == Some(PublishResult) && j.payload == Some(p)
  }

  /** A final failure names the job; the handler builds it so. */
  predicate Proper(e: Event, j: Job) {
    e.FinalFailure? ==> e.payload.FailedResult? && WellFormed(e.payload) && e.payload.jobId == j.id
  }

  /** While a job is open, whatever conclusive event comes first is applied. */
  lemma OpenTakesAny(t: Table, task: TaskId, e: Event, now: Time, horizon: Time)
    requires Inv(t) && Proper(e, t.job)
    ensures Applies(EventCall(task, CommandOf(e)), t, now, horizon) <==> Open(t.job, task)
    ensures Open(t.job, task) ==> Decides(e, Step(EventCall(task, CommandOf(e)), t, now, horizon).job)
  {}

  lemma FillRefsOnly(t: Table, task: TaskId, url: Option<string>, uuid: Option<nat>, confirmed: bool, now: Time,
                     horizon: Time)
    ensures RefsOnly(t, Step(EventCall(task, FillImageRef(url, uuid, confirmed)), t, now, horizon))
  {}

  /** Once it is not open, an event about the job changes no more than missing image references. */
  lemma ClosedKeeps(t: Table, task: TaskId, e: Event, now: Time, horizon: Time)
    requires Inv(t) && Proper(e, t.job) && !Open(t.job, task)
    ensures RefsOnly(t, Handle(t, task, e, now, horizon)) && Inv(Handle(t, task, e, now, horizon))
  {
    OpenTakesAny(t, task, e, now, horizon);
    var c := EventCall(task, CommandOf(e));
    assert Step(c, t, now, horizon) == t;
    if e.Success? {
      var fill := EventCall(task, FillImageRef(e.url, e.uuid, e.byQuery && t.job.aiStores));
      FillRefsOnly(t, task, e.url, e.uuid, e.byQuery && t.job.aiStores, now, horizon);
      StepKeepsInvariant(fill, t, now, horizon);
    }
  }

  lemma RefsOnlyTransitive(a: Table, b: Table, c: Table)
    requires RefsOnly(a, b) && RefsOnly(b, c)
    ensures RefsOnly(a, c)
  {}

  lemma RefsOnlyStaysClosed(a: Table, b: Table, task: TaskId)
    requires RefsOnly(a, b)
    ensures Open(b.job, task) <==> Open(a.job, task)
  {}

  lemma {:induction false} ClosedKeepsAll(t: Table, task: TaskId, events: seq<(Event, Time)>, horizon: Time)
    requires Inv(t) && !Open(t.job, task) && forall e <- events :: Proper(e.0, t.job)
    ensures RefsOnly(t, HandleAll(t, task, events, horizon))
    decreases events
  {
    hide Inv, Handle, Open;
    if events != [] {
      var t1 := Handle(t, task, events[0].0, events[0].1, horizon);
      ClosedKeeps(t, task, events[0].0, events[0].1, horizon);
      RefsOnlyStaysClosed(t, t1, task);
      ClosedKeepsAll(t1, task, events[1..], horizon);
      RefsOnlyTransitive(t, t1, HandleAll(t, task, events, horizon));
    }
  }

  /** After the first event on an open job: its decision, and the job is not open any more. */
  lemma FirstDecides(t: Table, task: TaskId, e: Event, now: Time, horizon: Time)
    requires Inv(t) && Proper(e, t.job) && Open(t.job, task)
    ensures var t1 := Handle(t, task, e, now, horizon);
            Inv(t1) && Decides(e, t1.job) && !Open(t1.job, task) && t1.job.id == t.job.id
  {
    OpenTakesAny(t, task, e, now, horizon);
    var c := EventCall(task, CommandOf(e));
    var t1 := Step(c, t, now, horizon);
    StepKeepsInvariant(c, t, now, horizon);
    StoredNotFilled(t, task, e, now, horizon);
    ContradictionKeeps(t1, task, RESULT_CONFLICT, now);
    ContradictionKeepsDecision(t1, task, RESULT_CONFLICT, now, e);
  }

  /** The transition itself has stored what the event carried: there is nothing left to fill. */
  lemma StoredNotFilled(t: Table, task: TaskId, e: Event, now: Time, horizon: Time)
    requires Open(t.job, task)
    ensures e.Success? ==> !FillTried(e, true, Step(EventCall(task, CommandOf(e)), t, now, horizon).job)
  {}

  lemma ContradictionKeepsDecision(t: Table, task: TaskId, reason: string, now: Time, e: Event)
    requires Decides(e, t.job)
    ensures var j' := ContradictionStep(t, task, reason, now).job;
            Decides(e, j') && !Open(j', task) && j'.id == t.job.id
  {}

  /** For any sequence of conclusive events, repeated and in any order, on an open job: the first one decides. */
  lemma FirstConclusiveWins(t: Table, task: TaskId, events: seq<(Event, Time)>, horizon: Time)
    requires Inv(t) && Open(t.job, task) && events != [] && forall e <- events :: Proper(e.0, t.job)
    ensures Decides(events[0].0, Handle(t, task, events[0].0, events[0].1, horizon).job)
    ensures Stands(events[0].0, HandleAll(t, task, events, horizon).job)
    ensures RefsOnly(Handle(t, task, events[0].0, events[0].1, horizon), HandleAll(t, task, events, horizon))
  {
    FirstDecides(t, task, events[0].0, events[0].1, horizon);
    hide Inv, Handle, Open;
    ClosedKeepsAll(Handle(t, task, events[0].0, events[0].1, horizon), task, events[1..], horizon);
  }

  /** Handling a whole sequence of events a second time changes nothing but missing image references. */
  lemma RehandlingChangesNothing(t: Table, task: TaskId, events: seq<(Event, Time)>, again: seq<(Event, Time)>,
                                 horizon: Time)
    requires Inv(t) && events != []
    requires (forall e <- events :: Proper(e.0, t.job)) && (forall e <- again :: Proper(e.0, t.job))
    ensures var once := HandleAll(t, task, events, horizon); RefsOnly(once, HandleAll(once, task, again, horizon))
  {
    hide Handle;
    var first := events[0];
    var t1 := Handle(t, task, first.0, first.1, horizon);
    if Open(t.job, task) {
      FirstDecides(t, task, first.0, first.1, horizon);
    } else {
      ClosedKeeps(t, task, first.0, first.1, horizon);
      RefsOnlyStaysClosed(t, t1, task);
    }
    hide Open, Inv;
    AllStaysClosed(t1, task, events[1..], horizon);
    ClosedKeepsAll(HandleAll(t, task, events, horizon), task, again, horizon);
  }

  lemma {:induction false} AllStaysClosed(t: Table, task: TaskId, events: seq<(Event, Time)>, horizon: Time)
    requires Inv(t) && !Open(t.job, task) && forall e <- events :: Proper(e.0, t.job)
    ensures var t' := HandleAll(t, task, events, horizon); Inv(t') && !Open(t'.job, task) && t'.job.id == t.job.id
    decreases events
  {
    hide Inv, Handle, Open;
    if events != [] {
      var t1 := Handle(t, task, events[0].0, events[0].1, horizon);
      ClosedKeeps(t, task, events[0].0, events[0].1, horizon);
      RefsOnlyStaysClosed(t, t1, task);
      AllStaysClosed(t1, task, events[1..], horizon);
    }
  }

  // ----- over the whole life of a job -----

  predicate Conclusive(c: Command) {
    c.EventCall? && (c.event.Succeeded? || c.event.FailedRecoverable? || c.event.FailedFinal?)
  }

  lemma ConcludedStays(c: Command, t: Table, now: Time, horizon: Time)
    requires Inv(t) && Conclusive(c) && Applies(c, t, now, horizon)
    ensures var j' := Step(c, t, now, horizon).job; Undecided(t.job) && (j'.payload.Some? || Rank(j'.status) >= 2)
  {}

  /** Whatever else happens in between, at most one conclusive event is ever applied to a job. */
  lemma OneConclusionPerJob(t: Table, calls: seq<Call>, horizon: Time, i: nat, k: nat)
    requires Inv(t) && Lawful(t, calls, horizon) && i < k < |calls|
    requires Conclusive(calls[i].command) && Conclusive(calls[k].command)
    requires Applies(calls[i].command, Run(t, calls[..i], horizon), calls[i].at, horizon)
    ensures !Applies(calls[k].command, Run(t, calls[..k], horizon), calls[k].at, horizon)
  {
    var before := Run(t, calls[..i], horizon);
    var after := Run(t, calls[..i + 1], horizon);
    assert calls[..i + 1][..i] == calls[..i];
    LawfulTo(t, calls, i, horizon);
    RunKeepsInvariant(t, calls[..i], horizon);
    ConcludedStays(calls[i].command, before, calls[i].at, horizon);
    LawfulTo(t, calls, i + 1, horizon);
    RunKeepsInvariant(t, calls[..i + 1], horizon);
    RunEvolves(t, calls, i + 1, k, horizon);
    LawfulTo(t, calls, k, horizon);
    RunKeepsInvariant(t, calls[..k], horizon);
    var later := Run(t, calls[..k], horizon);
    hide Run, Lawful, Legal;
    if Applies(calls[k].command, later, calls[k].at, horizon) {
      ConcludedStays(calls[k].command, later, calls[k].at, horizon);
      assert false;
    }
  }
}

/** Late image references: the UPDATE's condition under SQL's three-valued logic, and the check made before it. */
module ImageReferences {
  import opened Basics
  import opened Jobs
  import opened Transitions
  import opened RowInvariant
  import opened Webhook

  datatype Truth = Yes | No | Unknown

  function And(a: Truth, b: Truth): Truth {
    if a.No? || b.No? then No else if a.Unknown? || b.Unknown? then Unknown else Yes
  }

  function Or(a: Truth, b: Truth): Truth {
    if a.Yes? || b.Yes? then Yes else if a.Unknown? || b.Unknown? then Unknown else No
  }

  function Flag(b: bool): Truth { if b then Yes else No }

  /** Comparison with NULL is neither true nor false. */
  function SqlEq<T(==)>(a: Option<T>, b: Option<T>): Truth { if a.None? || b.None? then Unknown else Flag(a == b) }

  /** The references part of the WHERE clause, as written. */
  function RefsWhere(j: Job, url: Option<string>, uuid: Option<nat>, confirmed: bool): Truth {
    And(Or(Flag(j.imageUrl.None?), Or(Flag(url.None?), SqlEq(j.imageUrl, url))),
    And(Or(Flag(j.imageUuid.None?), Or(Flag(uuid.None?), SqlEq(j.imageUuid, uuid))),
    And(Or(SqlEq(j.imageUrl, url), Or(SqlEq(j.imageUuid, uuid), And(Flag(confirmed), Flag(j.aiStores)))),
        Or(And(Flag(j.imageUrl.None?), Flag(url.Some?)), And(Flag(j.imageUuid.None?), Flag(uuid.Some?))))))
  }

  function FillWhere(j: Job, task: TaskId, url: Option<string>, uuid: Option<nat>, confirmed: bool): Truth {
    And(SqlEq(j.taskUuid, Some(task)),
    And(Flag(j.submitStartedAt.Some?),
    And(Flag(j.status == Postprocessing),
    And(SqlEq(j.nextAction, Some(Postprocess)),
    And(Flag(j.payload.None?), RefsWhere(j, url, uuid, confirmed))))))
  }

  predicate Clash<T(==)>(column: Option<T>, v: Option<T>) { column.Some? && v.Some? && column != v }
  predicate Anchor<T(==)>(column: Option<T>, v: Option<T>) { column.Some? && column == v }
  predicate Missing<T(==)>(column: Option<T>, v: Option<T>) { column.None? && v.Some? }

  /** The row is updated exactly when there is no conflict, something to fill, and evidence of the same result. */
  lemma FillWhereExactly(j: Job, task: TaskId, url: Option<string>, uuid: Option<nat>, confirmed: bool, t: Table,
                         now: Time, horizon: Time)
    requires t.job == j
    ensures FillWhere(j, task, url, uuid, confirmed) == Yes <==>
              && j.taskUuid == Some(task) && j.submitStartedAt.Some?
              && At(j, Postprocessing, Postprocess) && j.payload.None?
              && !Clash(j.imageUrl, url) && !Clash(j.imageUuid, uuid)
              && (Missing(j.imageUrl, url) || Missing(j.imageUuid, uuid))
              && (Anchor(j.imageUrl, url) || Anchor(j.imageUuid, uuid) || (confirmed && j.aiStores))
    ensures FillWhere(j, task, url, uuid, confirmed) == Yes <==>
              Applies(EventCall(task, FillImageRef(url, uuid, confirmed)), t, now, horizon)
  {
    RefsWhereExactly(j, url, uuid, confirmed);
    hide RefsWhere;
  }

  lemma RefsWhereExactly(j: Job, url: Option<string>, uuid: Option<nat>, confirmed: bool)
    ensures RefsWhere(j, url, uuid, confirmed) == Yes <==>
              && !Clash(j.imageUrl, url) && !Clash(j.imageUuid, uuid)
              && (Missing(j.imageUrl, url) || Missing(j.imageUuid, uuid))
              && (Anchor(j.imageUrl, url) || Anchor(j.imageUuid, uuid) || (confirmed && j.aiStores))
  {}

  /** The check made on the row read before never holds back a fill that the row still allows; what it lets through in
      vain is a first reference nobody has confirmed. */
  lemma PreCheckIsSafe(t: Table, task: TaskId, e: Event, now: Time, horizon: Time)
    requires Inv(t) && e.Success? && EventAllowed(t.job, task)
    ensures var c := EventCall(task, CommandOf(e));
            var t1 := Step(c, t, now, horizon);
            var tried := FillTried(e, Applies(c, t, now, horizon), t1.job);
            var allowed := FillWhere(t1.job, task, e.url, e.uuid, e.byQuery && t1.job.aiStores) == Yes;
            && (allowed ==> tried)
            && (tried && !allowed <==>
                  && !Applies(c, t, now, horizon) && At(t.job, Postprocessing, Postprocess) && t.job.payload.None?
                  && (e.url.Some? || e.uuid.Some?) && t.job.imageUrl.None? && t.job.imageUuid.None?
                  && !(e.byQuery && t.job.aiStores))
  {
    var c := EventCall(task, CommandOf(e));
    var t1 := Step(c, t, now, horizon);
    FillWhereExactly(t1.job, task, e.url, e.uuid, e.byQuery && t1.job.aiStores, t1, now, horizon);
    hide FillWhere, RefsWhere;
  }

  /** Over any run of any calls, an image reference once stored is never changed. */
  lemma RefsAreWriteOnce(t: Table, calls: seq<Call>, horizon: Time, m: nat, n: nat)
    requires Inv(t) && Lawful(t, calls, horizon) && m <= n <= |calls|
    ensures var a, b := Run(t, calls[..m], horizon).job, Run(t, calls[..n], horizon).job;
            Kept(a.imageUrl, b.imageUrl) && Kept(a.imageUuid, b.imageUuid)
  {
    RunEvolves(t, calls, m, n, horizon);
  }
}
