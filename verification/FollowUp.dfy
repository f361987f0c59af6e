/** Messages of the internal queue: each asks for one step of a job, and is deleted only when that step is over. */
module FollowUp {
  import opened Basics
  import opened Jobs
  import opened Transitions
  import opened RowInvariant
  import opened NextStep
  import opened Repository
  import opened Interference

  datatype Action = ForPostprocess | ForFallback

  function Asked(a: Action): NextAction { if a.ForPostprocess? then Postprocess else RunFallback }

  function Expected(a: Action): Status { if a.ForPostprocess? then Postprocessing else FallbackRunning }

  predicate WaitingFor(j: Job, a: Action) { At(j, Expected(a), Asked(a)) }

  /** A message is published only once the job has reached its step. */
  predicate Reached(j: Job, a: Action) { Rank(Expected(a)) <= Rank(j.status) }

  /** A step that was reached and is not waited for any more never comes back. */
  lemma StepIsOver(t: Table, t': Table, a: Action)
    requires Inv(t) && Later(t, t') && Reached(t.job, a) && !WaitingFor(t.job, a)
    ensures Reached(t'.job, a) && !WaitingFor(t'.job, a)
  {}

  /** What the handler answered, and whether lease and visibility could be extended all the while. */
  datatype Ran = Ran(done: bool, handOff: bool, alive: bool)

  /** How far one message got: judged on the first row alone, refused the lease, or granted it. at is the row when the
      lease was asked for, seen the row it was judged on. */
  datatype Way =
    | Unasked
    | Refused(at: Table, when: Time, seen: Table)
    | Granted(at: Table, when: Time, ran: Option<Ran>, seen: Table)

  /** The first row settles the matter, without the lease. */
  predicate FirstLook(j: Job, task: TaskId, a: Action, paths: Paths, queued: bool) {
    && j.taskUuid == Some(task)
    && (|| Settled(j)
        || (!WaitingFor(j, a)
            && if a.ForPostprocess? && WaitingFor(j, ForFallback) then queued else DeletionAllowed(j, paths)))
  }

  /** The row as the handler left it, and what the handler said of it. */
  predicate LastLook(j: Job, r: Ran, a: Action, paths: Paths, queued: bool) {
    && r.alive && r.done && (Settled(j) || !WaitingFor(j, a))
    && if r.handOff && a.ForPostprocess? && WaitingFor(j, ForFallback) then queued
       else Settled(j) || DeletionAllowed(j, paths)
  }

  /** The lease is to be had at that moment. */
  predicate Available(j: Job, a: Action, lease: int, when: Time) {
    !Terminal(j) && j.nextAction == Some(Asked(a)) && LeaseFree(j, when) && 0 < lease <= MAX_LEASE
  }

  /** Exactly when a message goes, by how far it got. */
  predicate Goes(w: Way, first: Job, task: TaskId, a: Action, lease: int, started: bool, paths: Paths, queued: bool) {
    match w
    case Unasked => FirstLook(first, task, a, paths, queued)
    case Refused(at, when, seen) =>
      // the job has moved on to another step: someone has to carry it on
      && 0 < lease <= MAX_LEASE && !Terminal(at.job) && at.job.nextAction != Some(Asked(a))
      && (Settled(seen.job) || DeletionAllowed(seen.job, paths))
    case Granted(at, when, ran, seen) => ran.Some? && LastLook(seen.job, ran.value, a, paths, queued)
  }

  /** The way was gone as the rows on it allow. */
  predicate Straight(w: Way, first: Table, last: Table, task: TaskId, a: Action, lease: int, connected: bool,
                     started: bool)
  {
    var due := first.job.taskUuid == Some(task) && WaitingFor(first.job, a) && connected;
    match w
    case Unasked => !due && last == first
    case Refused(at, when, seen) =>
      due && Later(first, at) && !Available(at.job, a, lease, when) && Later(at, seen) && Later(seen, last)
    case Granted(at, when, ran, seen) =>
      && due && Later(first, at) && Available(at.job, a, lease, when) && Later(at, seen) && Later(seen, last)
      && (ran.Some? <==> started && at.job.taskUuid == Some(task))
  }

  class FollowUpProcessor {
    const state: AsyncJobStateRepository

    constructor (state: AsyncJobStateRepository)
      ensures this.state == state
    {
      this.state := state;
    }

    /** The handler: whatever it does and whatever happens meanwhile, the row moves on; its answer is its own. */
    method RunHandler() returns (done: bool, handOff: bool)
      requires state.db.table.Some? && Inv(state.db.table.value)
      modifies state.db`table, state.db`clock
      ensures state.db.table.Some? && Later(old(state.db.table.value), state.db.table.value)
    {
      Meanwhile(state.db);
      done, handOff := *, *;
    }

    /** After the lease grant: run the handler, look again, decide. */
    method Work(task: TaskId, a: Action, granted: Job, started: bool, alive: bool, paths: Paths, queued: bool)
      returns (delete: bool, ghost ran: Option<Ran>)
      requires state.db.table.Some? && Inv(state.db.table.value)
      modifies state.db`table, state.db`clock
      ensures state.db.table.Some? && Later(old(state.db.table.value), state.db.table.value)
      ensures ran.Some? <==> granted.taskUuid == Some(task) && WaitingFor(granted, a) && started
      ensures delete <==> ran.Some? && LastLook(state.db.table.value.job, ran.value, a, paths, queued)
    {
      hide Inv, Evolves, DeletionAllowed;
      LaterReflexive(state.db.table.value);
      ran := None;
      if granted.taskUuid != Some(task) || !WaitingFor(granted, a) { return false, ran; }
      if !started { return false, ran; }
      var done, handOff := RunHandler();
      ran := Some(Ran(done, handOff, alive));
      if !alive || !done { return false, ran; }
      var latest := state.db.table.value.job;
      if WaitingFor(latest, a) && !Settled(latest) { return false, ran; }
      if handOff && a.ForPostprocess? && WaitingFor(latest, ForFallback) { return queued, ran; }
      delete := Settled(latest) || DeletionAllowed(latest, paths);
    }

    /** The lease, the work and the release; a lost race is judged on the latest row. */
    method Take(token: Token, task: TaskId, a: Action, lease: int, started: bool, alive: bool, paths: Paths,
                queued: bool)
      returns (delete: bool, ghost way: Way)
      requires state.db.table.Some? && Inv(state.db.table.value)
      requires state.db.table.value.job.taskUuid == Some(task) && WaitingFor(state.db.table.value.job, a)
      modifies state.db`table, state.db`clock
      ensures state.db.table.Some? && Later(old(state.db.table.value), state.db.table.value)
      ensures Straight(way, old(state.db.table.value), state.db.table.value, task, a, lease, true, started)
      ensures delete <==> Goes(way, old(state.db.table.value.job), task, a, lease, started, paths, queued)
      ensures !way.Unasked?
    {
      hide Inv, Evolves, DeletionAllowed, Step, Applies;
      ghost var t := state.db.table.value;
      Meanwhile(state.db);
      ghost var t1, when := state.db.table.value, state.db.clock;
      GrantSets(t1, token, a, lease, when, state.db.horizon);
      LaterReflexive(t1);
      LaterStep(t, t1, LeaseCall(Acquire(token, Asked(a), lease)), when, state.db.horizon);
      var grant := state.AcquireLease(token, Asked(a), lease);
      ghost var t2 := state.db.table.value;
      if !grant.applied {
        delete := false;
        if grant.reason == Mismatch { delete := Judge(paths); }
        way := Refused(t1, when, state.db.table.value);
        LaterTransitive(t, t1, state.db.table.value);
        LaterTransitive(t1, t1, state.db.table.value);
        LaterReflexive(state.db.table.value);
        return;
      }
      ghost var ran;
      delete, ran := Work(task, a, grant.job.value, started, alive, paths, queued);
      ghost var t3 := state.db.table.value;
      LaterTransitive(t, t2, t3);
      GiveBack(token);
      LaterTransitive(t, t3, state.db.table.value);
      LaterTransitive(t1, t2, t3);
      way := Granted(t1, when, ran, t3);
    }

    lemma GrantSets(t: Table, token: Token, a: Action, lease: int, now: Time, horizon: Time)
      requires Inv(t)
      ensures var c := LeaseCall(Acquire(token, Asked(a), lease));
              var t' := Step(c, t, now, horizon);
              && (Applies(c, t, now, horizon) <==> Available(t.job, a, lease, now))
              && (Available(t.job, a, lease, now) ==> WaitingFor(t'.job, a) && t'.job.taskUuid == t.job.taskUuid)
              && (!Available(t.job, a, lease, now) ==> t' == t)
    {}

    /** Another actor has taken the job past this step: the message may go if someone carries on. */
    method Judge(paths: Paths) returns (delete: bool)
      requires state.db.table.Some? && Inv(state.db.table.value)
      modifies state.db`table, state.db`clock
      ensures state.db.table.Some? && Later(old(state.db.table.value), state.db.table.value)
      ensures delete <==> Settled(state.db.table.value.job) || DeletionAllowed(state.db.table.value.job, paths)
    {
      Meanwhile(state.db);
      var latest := state.db.table.value.job;
      delete := Settled(latest) || DeletionAllowed(latest, paths);
    }

    method GiveBack(token: Token)
      requires state.db.table.Some? && Inv(state.db.table.value)
      modifies state.db`table, state.db`clock
      ensures state.db.table.Some? && Later(old(state.db.table.value), state.db.table.value)
      ensures !LeaseValid(state.db.table.value.job, token, state.db.clock)
    {
      ghost var t := state.db.table.value;
      Meanwhile(state.db);
      LaterStep(t, state.db.table.value, LeaseCall(Release(token)), state.db.clock, state.db.horizon);
      hide Inv, Evolves;
      var _ := state.ReleaseLease(token);
    }

    /**
     * One message. queued says whether publishing the fallback's message succeeds; started and alive whether the lease
     * could be kept up before and during the work.
     */
    method Process(token: Token, task: TaskId, a: Action, lease: int, connected: bool, started: bool, alive: bool,
                   paths: Paths, queued: bool)
      returns (delete: bool, ghost way: Way)
      requires state.db.table.Some? && Inv(state.db.table.value)
      modifies state.db`table, state.db`clock
      ensures state.db.table.Some? && Later(old(state.db.table.value), state.db.table.value)
      ensures Straight(way, old(state.db.table.value), state.db.table.value, task, a, lease, connected, started)
      ensures delete <==> Goes(way, old(state.db.table.value.job), task, a, lease, started, paths, queued)
      // a message that was due is only deleted when its step is over for good
      ensures delete ==> !WaitingFor(state.db.table.value.job, a)
    {
      hide Inv, Evolves, DeletionAllowed, Straight;
      ghost var t := state.db.table.value;
      LaterReflexive(t);
      if Settled(t.job) { SettledWaitsForNothing(t, a); }
      var j := state.db.table.value.job;
      way := Unasked;
      if j.taskUuid != Some(task) {
        delete := false;
      } else if Settled(j) {
        delete := true;
      } else if !WaitingFor(j, a) {
        if a.ForPostprocess? && WaitingFor(j, ForFallback) {
          delete := queued;
        } else {
          delete := DeletionAllowed(j, paths);
        }
      } else if connected {
        delete, way := Take(token, task, a, lease, started, alive, paths, queued);
        if delete { GoneIsOver(way, t, state.db.table.value, task, a, lease, connected, started, paths, queued); }
        return;
      } else {
        delete := false;
      }
      UnaskedIsStraight(t, task, a, lease, connected, started);
      if delete { GoneIsOver(way, t, t, task, a, lease, connected, started, paths, queued); }
    }

    lemma UnaskedIsStraight(t: Table, task: TaskId, a: Action, lease: int, connected: bool, started: bool)
      requires !(t.job.taskUuid == Some(task) && WaitingFor(t.job, a) && connected)
      ensures Straight(Unasked, t, t, task, a, lease, connected, started)
    {}

    lemma SettledWaitsForNothing(t: Table, a: Action)
      requires Inv(t) && Settled(t.job)
      ensures !WaitingFor(t.job, a)
    {}

    /** A message that goes leaves its step behind. */
    lemma GoneIsOver(w: Way, first: Table, last: Table, task: TaskId, a: Action, lease: int, connected: bool,
                     started: bool, paths: Paths, queued: bool)
      requires Inv(first) && Later(first, last)
      requires Straight(w, first, last, task, a, lease, connected, started)
      requires Goes(w, first.job, task, a, lease, started, paths, queued)
      ensures !WaitingFor(last.job, a)
    {
      match w
      case Unasked =>
      case Refused(at, when, seen) =>
        RankKept(first, at, a);
        StepIsOver(at, seen, a);
        StepIsOver(seen, last, a);
      case Granted(at, when, ran, seen) =>
        LaterTransitive(first, at, seen);
        RankKept(first, seen, a);
        if Settled(seen.job) { SettledWaitsForNothing(seen, a); }
        StepIsOver(seen, last, a);
    }

    lemma RankKept(t: Table, t1: Table, a: Action)
      requires Later(t, t1) && Reached(t.job, a)
      ensures Reached(t1.job, a)
    {
      hide Inv;
    }
  }
}
