/** The watchdog's own table: when a job is checked next, and when its follow-up was last published again. */
module WatchdogChecks {
  import opened Basics
  import opened Jobs
  import opened Watchdog

  /** The statements on one job's row in that table. */
  datatype CheckCall =
    | ClaimCheck(interval: nat)
    | DeferCheck(wait: nat)
    | ClaimRepublish(interval: nat)
    | ClaimRepublishOnce(stage: Option<Time>)  // the stage start is read from the job's row by the same statement
    | ForgetRepublish
    | SettleCleanup

  /** follow_up_published_at IS NULL OR follow_up_published_at < stage start, which NULL never satisfies. */
  predicate OnceAllowed(published: Option<Time>, stage: Option<Time>) {
    published.None? || (stage.Some? && published.value < stage.value)
  }

  /** The statement finds the row as it wants it. */
  predicate Wins(c: CheckCall, check: Option<Check>, now: Time) {
    match c
    case ClaimCheck(_) => CheckDue(check, now)
    case ClaimRepublish(interval) =>
      check.Some? && (check.value.publishedAt.None? || check.value.publishedAt.value <= now - interval)
    case ClaimRepublishOnce(stage) => check.Some? && OnceAllowed(check.value.publishedAt, stage)
    case _ => check.Some?
  }

  function After(c: CheckCall, check: Option<Check>, now: Time): Option<Check> {
    if !Wins(c, check, now) then check
    else match c
      case ClaimCheck(interval) =>
        Some(if check.None? then Check(now + interval, None, false) else check.value.(nextAt := now + interval))
      case DeferCheck(wait) => Some(check.value.(nextAt := now + wait))
      case ForgetRepublish => Some(check.value.(publishedAt := None))
      case SettleCleanup => Some(check.value.(settled := true))
      case _ => Some(check.value.(publishedAt := Some(now)))
  }

  type CheckTable = map<int, Check>

  function Of(checks: CheckTable, id: int): Option<Check> { if id in checks then Some(checks[id]) else None }

  function Put(checks: CheckTable, id: int, check: Option<Check>): CheckTable {
    if check.Some? then checks[id := check.value] else checks
  }

  /** Since some instant a row's next check has not moved, or has moved past that instant; new rows start past it. */
  ghost predicate Aside(checks: CheckTable, checks': CheckTable, since: Time) {
    && (forall id <- checks :: id in checks' && (checks'[id].nextAt == checks[id].nextAt || since < checks'[id].nextAt))
    && (forall id <- checks' :: id !in checks ==> since < checks'[id].nextAt)
  }

  /** Whoever wins the claim of a check, it is not due again before the interval is over. */
  lemma ClaimMovesOn(checks: CheckTable, id: int, interval: nat, since: Time, now: Time)
    requires 0 < interval && since <= now
    ensures var checks' := Put(checks, id, After(ClaimCheck(interval), Of(checks, id), now));
            id in checks' && now < checks'[id].nextAt && Aside(checks, checks', since)
  {}

  lemma AsideReflexive(checks: CheckTable, since: Time)
    ensures Aside(checks, checks, since)
  {}

  lemma AsideTransitive(a: CheckTable, b: CheckTable, c: CheckTable, since: Time, later: Time)
    requires Aside(a, b, since) && Aside(b, c, later) && since <= later
    ensures Aside(a, c, since)
  {}

  lemma StaysPast(checks: CheckTable, checks': CheckTable, id: int, since: Time, later: Time)
    requires Aside(checks, checks', later) && since <= later && id in checks && since < checks[id].nextAt
    ensures id in checks' && since < checks'[id].nextAt
  {}

  /** ORDER BY next_check_at NULLS FIRST, fitting_job_id. */
  predicate Before(checks: CheckTable, a: int, b: int) {
    match (Of(checks, a), Of(checks, b))
    case (None, None) => a < b
    case (None, Some(_)) => true
    case (Some(_), None) => false
    case (Some(x), Some(y)) => x.nextAt < y.nextAt || (x.nextAt == y.nextAt && a < b)
  }

  /** A strict order of all jobs: those never checked first, then the earlier due before the later. */
  lemma OrderIsTotal(checks: CheckTable, a: int, b: int, c: int)
    ensures a == b ==> !Before(checks, a, b)
    ensures a != b ==> (Before(checks, a, b) <==> !Before(checks, b, a))
    ensures Before(checks, a, b) && Before(checks, b, c) ==> Before(checks, a, c)
    ensures a !in checks && b in checks ==> Before(checks, a, b)
    ensures a in checks && b in checks && checks[a].nextAt < checks[b].nextAt ==> Before(checks, a, b)
    ensures a in checks && b in checks && checks[a].nextAt == checks[b].nextAt && a < b ==> Before(checks, a, b)
  {}

  /** LIMIT: all that satisfy the conditions, or as many of the first as the limit allows. */
  ghost predicate Answer(picked: set<int>, due: set<int>, checks: CheckTable, limit: nat) {
    && picked <= due && |picked| == (if |due| < limit then |due| else limit)
    && forall b, a :: b in picked && a in due - picked ==> Before(checks, b, a)
  }

  /** A cycle: its instant, the jobs that satisfied the query's conditions, and those it returned. */
  datatype Cycle = Cycle(now: Time, due: set<int>, picked: set<int>)

  /** From the query of one cycle to that of the next: every job it returned has been checked by then. */
  ghost predicate CycleCompleted(c: Cycle, checks: CheckTable, checks': CheckTable, limit: nat) {
    && Answer(c.picked, c.due, checks, limit)
    && Aside(checks, checks', c.now) && forall b <- c.picked :: b in checks' && c.now < checks'[b].nextAt
  }

  class WatchdogRepository {
    var checks: CheckTable
    var clock: Time   // the database's
    ghost var wins: seq<int>  // the jobs whose checks were won here, in order

    constructor (clock: Time)
      ensures checks == map[] && this.clock == clock && wins == []
    {
      checks, this.clock, wins := map[], clock, [];
    }

    /** What other instances and inspections do to the table while time passes. */
    method Meanwhile()
      modifies `checks, `clock
      ensures old(clock) <= clock && Aside(old(checks), checks, old(clock))
    {}

    method ClaimCheck(id: int, interval: nat) returns (won: bool)
      modifies `checks, `wins
      ensures wins == old(wins) + if won then [id] else []
      ensures won == Wins(CheckCall.ClaimCheck(interval), Of(old(checks), id), clock)
      ensures checks == Put(old(checks), id, After(CheckCall.ClaimCheck(interval), Of(old(checks), id), clock))
    {
      if id !in checks {
        checks, won := checks[id := Check(clock + interval, None, false)], true;
      } else if checks[id].nextAt <= clock {
        checks, won := checks[id := checks[id].(nextAt := clock + interval)], true;
      } else {
        won := false;
      }
      if won { wins := wins + [id]; }
    }

    method DeferCheck(id: int, wait: nat)
      modifies `checks
      ensures checks == Put(old(checks), id, After(CheckCall.DeferCheck(wait), Of(old(checks), id), clock))
    {
      if id in checks { checks := checks[id := checks[id].(nextAt := clock + wait)]; }
    }

    method ClaimRepublish(id: int, interval: nat) returns (won: bool)
      modifies `checks
      ensures won == Wins(CheckCall.ClaimRepublish(interval), Of(old(checks), id), clock)
      ensures checks == Put(old(checks), id, After(CheckCall.ClaimRepublish(interval), Of(old(checks), id), clock))
    {
      won := false;
      if id !in checks { return; }
      var published := checks[id].publishedAt;
      if published.Some? && clock - interval < published.value { return; }
      checks, won := checks[id := checks[id].(publishedAt := Some(clock))], true;
    }

    /** At most one re-publication per post-processing stage; j is the job's row as the statement reads it. */
    method ClaimRepublishOnce(id: int, j: Job) returns (won: bool)
      modifies `checks
      ensures won == Wins(CheckCall.ClaimRepublishOnce(StageStart(j)), Of(old(checks), id), clock)
      ensures
        checks == Put(old(checks), id, After(CheckCall.ClaimRepublishOnce(StageStart(j)), Of(old(checks), id), clock))
    {
      won := false;
      if id !in checks { return; }
      var published, stage := checks[id].publishedAt, StageStart(j);
      if published.Some? && (stage.None? || stage.value <= published.value) { return; }
      checks, won := checks[id := checks[id].(publishedAt := Some(clock))], true;
    }

    method ForgetRepublish(id: int)
      modifies `checks
      ensures checks == Put(old(checks), id, After(CheckCall.ForgetRepublish, Of(old(checks), id), clock))
    {
      if id in checks { checks := checks[id := checks[id].(publishedAt := None)]; }
    }

    method SettleCleanup(id: int)
      modifies `checks
      ensures checks == Put(old(checks), id, After(CheckCall.SettleCleanup, Of(old(checks), id), clock))
    {
      if id in checks { checks := checks[id := checks[id].(settled := true)]; }
    }

    /** One cycle over the jobs the query returned; a requested stop ends it early: stops says before which jobs one
        stands. Whoever wins the check of a job, it is not due again for now. */
    method RunOnce(ghost due: set<int>, picked: seq<int>, stops: seq<bool>, limit: nat, interval: nat)
      returns (checked: seq<int>, complete: bool)
      requires 0 < interval && Answer((set id | id in picked), due, checks, limit) && |stops| == |picked|
      modifies this
      ensures old(clock) <= clock && Aside(old(checks), checks, old(clock))
      ensures complete ==> CycleCompleted(Cycle(old(clock), due, (set id | id in picked)), old(checks), checks, limit)
      // it is complete unless stopped, and inspects exactly the jobs whose checks it has won
      ensures complete <==> true !in stops
      ensures wins == old(wins) + checked && forall id <- checked :: id in picked
    {
      hide Aside, Put, After, Answer;
      ghost var first, start, won0 := checks, clock, wins;
      AsideReflexive(first, start);
      checked := [];
      for i := 0 to |picked|
        invariant start <= clock && Aside(first, checks, start)
        invariant forall k :: 0 <= k < i ==> picked[k] in checks && start < checks[picked[k]].nextAt
        invariant forall id <- checked :: id in picked
        invariant wins == won0 + checked && forall k :: 0 <= k < i ==> !stops[k]
      {
        ghost var before, since := checks, clock;
        Meanwhile();
        AsideTransitive(first, before, checks, start, since);
        if stops[i] { return checked, false; }
        ghost var between := checks;
        var won := ClaimCheck(picked[i], interval);
        ClaimMovesOn(between, picked[i], interval, start, clock);
        AsideTransitive(first, between, checks, start, start);
        forall k | 0 <= k <= i
          ensures picked[k] in checks && start < checks[picked[k]].nextAt
        {
          if k < i {
            StaysPast(before, between, picked[k], start, since);
            StaysPast(between, checks, picked[k], start, start);
          }
        }
        if won { checked := checked + [picked[i]]; }
      }
      complete := true;
    }
  }
}

/** Whole runs of the watchdog's instances and of everybody else on one job. */
module WatchdogRuns {
  import opened Basics
  import opened Jobs
  import opened Transitions
  import opened RowInvariant
  import opened Watchdog
  import opened WatchdogChecks

  datatype Act = RowCall(command: Command) | Look | CheckCall(call: CheckCall)
  datatype Event = Event(act: Act, at: Time)

  /** seen: some inspection has found the job waiting for the post-processing of an image we store. */
  datatype World = World(t: Table, check: Option<Check>, seen: bool)

  function Next(w: World, e: Event, horizon: Time): World {
    match e.act
    case RowCall(c) => w.(t := Step(c, w.t, e.at, horizon))
    case Look => w.(seen := w.seen || (w.t.job.aiStores && w.t.job.nextAction == Some(Postprocess)))
    case CheckCall(c) => w.(check := After(c, w.check, e.at))
  }

  /** A publication once per stage is claimed only after such an inspection. */
  predicate Enabled(w: World, act: Act) {
    match act
    case RowCall(c) => Honest(c, w.t)
    case CheckCall(ClaimRepublishOnce(stage)) => w.seen && stage == StageStart(w.t.job)
    case _ => true
  }

  function Reach(w: World, events: seq<Event>, horizon: Time): World {
    if events == [] then w
    else
      var n := |events| - 1;
      Next(Reach(w, events[..n], horizon), events[n], horizon)
  }

  predicate Possible(w: World, start: Time, events: seq<Event>, horizon: Time) {
    && (forall i :: 0 <= i < |events| ==> start <= events[i].at)
    && (forall i, k :: 0 <= i < k < |events| ==> events[i].at <= events[k].at)
    && (forall i :: 0 <= i < |events| ==> Enabled(Reach(w, events[..i], horizon), events[i].act))
  }

  lemma PossiblePrefix(w: World, start: Time, events: seq<Event>, horizon: Time)
    requires Possible(w, start, events, horizon) && events != []
    ensures var n := |events| - 1;
            Possible(w, start, events[..n], horizon) && Enabled(Reach(w, events[..n], horizon), events[n].act)
  {
    hide Reach, Enabled;
    var n := |events| - 1;
    assert forall i :: 0 <= i < n ==> events[..n][..i] == events[..i];
  }

  function Beginning(id: int, fingerprint: string, start: Time): World {
    World(Created(id, fingerprint, start), None, false)
  }

  predicate Good(w: World, now: Time) {
    Inv(w.t) && Watchdog.Stamped(w.t.job, now) && (w.seen ==> w.t.job.acceptedAt.Some?)
  }

  lemma NextGood(w: World, e: Event, t0: Time, horizon: Time)
    requires Good(w, t0) && t0 <= e.at && Enabled(w, e.act)
    ensures Good(Next(w, e, horizon), e.at) && Evolves(w.t.job, Next(w, e, horizon).t.job)
  {
    EvolvesReflexive(w.t.job);
    match e.act
    case RowCall(c) =>
      hide Step, Inv;
      StepKeepsInvariant(c, w.t, e.at, horizon);
      StepStamped(c, w.t, t0, e.at, horizon);
    case _ =>
  }

  // ----- re-publication once per stage -----

  predicate OnceWin(w: World, e: Event) {
    e.act.CheckCall? && e.act.call.ClaimRepublishOnce? && Wins(e.act.call, w.check, e.at)
  }

  predicate IsForget(e: Event) { e.act.CheckCall? && e.act.call.ForgetRepublish? }

  /** How many claims of a publication once per stage were won in a run. */
  function OnceWins(w: World, events: seq<Event>, horizon: Time): nat {
    if events == [] then 0
    else
      var n := |events| - 1;
      OnceWins(w, events[..n], horizon) + if OnceWin(Reach(w, events[..n], horizon), events[n]) then 1 else 0
  }

  /** How many publications were recorded as failed. */
  function Forgets(events: seq<Event>): nat {
    if events == [] then 0
    else
      var n := |events| - 1;
      Forgets(events[..n]) + if IsForget(events[n]) then 1 else 0
  }

  function Published(w: World): Option<Time> { if w.check.None? then None else w.check.value.publishedAt }

  /** The claims still to be had: one for this stage, and one for the stage that begins with the verification. */
  function Left(w: World): nat {
    (if OnceAllowed(Published(w), StageStart(w.t.job)) then 1 else 0) + (if w.t.job.verified.None? then 1 else 0)
  }

  /** Every claim won uses one of those up, and only a failed publication gives one back. */
  lemma ClaimsAreUsedUp(w: World, e: Event, t0: Time, horizon: Time)
    requires Good(w, t0) && t0 <= e.at && Enabled(w, e.act) && w.t.job.acceptedAt.Some?
    ensures (if OnceWin(w, e) then 1 else 0) + Left(Next(w, e, horizon)) <= Left(w) + if IsForget(e) then 1 else 0
  {
    NextGood(w, e, t0, horizon);
    hide Inv, Step;
  }

  /** However often any number of instances look at a job, its post-processing is published again at most twice, and
      once more for each publication that failed. */
  lemma {:induction false} RepublishedAtMostTwice(id: int, fingerprint: string, start: Time, events: seq<Event>,
                                                  horizon: Time)
    requires Possible(Beginning(id, fingerprint, start), start, events, horizon)
    ensures OnceWins(Beginning(id, fingerprint, start), events, horizon) <= 2 + Forgets(events)
  {
    var _ := RepublicationsBounded(id, fingerprint, start, events, horizon);
  }

  lemma ReachMore(w: World, events: seq<Event>, e: Event, horizon: Time)
    ensures var before := Reach(w, events, horizon);
            && Reach(w, events + [e], horizon) == Next(before, e, horizon)
            && OnceWins(w, events + [e], horizon)
               == OnceWins(w, events, horizon) + (if OnceWin(before, e) then 1 else 0)
  {
    hide Enabled, Next, OnceWin;
    assert (events + [e])[..|events|] == events;
  }

  lemma PossibleMore(w: World, start: Time, events: seq<Event>, e: Event, horizon: Time)
    requires Possible(w, start, events, horizon) && Enabled(Reach(w, events, horizon), e.act) && start <= e.at
    requires events != [] ==> events[|events| - 1].at <= e.at
    ensures Possible(w, start, events + [e], horizon)
  {
    hide Enabled, Next, OnceWin, Reach, OnceWins;
    var more := events + [e];
    assert more[..|events|] == events;
    assert forall i :: 0 <= i < |events| ==> more[..i] == events[..i];
    assert forall i, k :: 0 <= i < k < |events| ==> more[i].at <= more[k].at;
  }

  lemma NothingYet(w: World, start: Time, horizon: Time)
    ensures Possible(w, start, [], horizon) && Reach(w, [], horizon) == w && OnceWins(w, [], horizon) == 0
  {}

  function Made(c: Command, at: Time): Event { Event(RowCall(c), at) }

  /** A job of ours, submitted and generated at once. */
  lemma Generated(horizon: Time) returns (events: seq<Event>)
    ensures var first := Beginning(7, "", 0);
            var w := Reach(first, events, horizon);
            && Possible(first, 0, events, horizon) && OnceWins(first, events, horizon) == 0
            && events != [] && events[|events| - 1].at == 0 && w.check.None? && !w.seen
            && At(w.t.job, Postprocessing, Postprocess) && w.t.job.aiStores && w.t.job.acceptedAt == Some(0)
            && w.t.job.verified.None? && w.t.job.payload.None? && w.t.job.lease.None?
  {
    hide Possible, Reach, OnceWins, ValidKey;
    PlainKey();
    var w := Beginning(7, "", 0);
    NothingYet(w, 0, horizon);
    events := [];
    events := Then(w, events, Made(LeaseCall(Acquire(1, SubmitPruna, 60 * SECOND)), 0), horizon);
    events := Then(w, events, Made(SubmitCall(1, Prepare(1, "k", true)), 0), horizon);
    events := Then(w, events, Made(AttemptCall(BeginSubmission(1, 1, true)), 0), horizon);
    events := Then(w, events, Made(LeaseCall(Release(1)), 0), horizon);
    events := Then(w, events, Made(EventCall(1, Succeeded(Some("u"), None)), 0), horizon);
  }

  lemma Then(w: World, events: seq<Event>, e: Event, horizon: Time) returns (more: seq<Event>)
    requires Possible(w, 0, events, horizon) && Enabled(Reach(w, events, horizon), e.act) && 0 <= e.at
    requires events != [] ==> events[|events| - 1].at <= e.at
    ensures Possible(w, 0, more, horizon) && more != [] && more[|more| - 1] == e
    ensures Reach(w, more, horizon) == Next(Reach(w, events, horizon), e, horizon)
    ensures OnceWins(w, more, horizon)
         == OnceWins(w, events, horizon) + if OnceWin(Reach(w, events, horizon), e) then 1 else 0
    ensures Forgets(more) == Forgets(events) + if IsForget(e) then 1 else 0
  {
    PossibleMore(w, 0, events, e, horizon);
    ReachMore(w, events, e, horizon);
    more := events + [e];
    assert more[..|events|] == events;
    hide Possible, Reach, OnceWins, Next, Enabled;
  }

  /** The bound is reached: a run in which the post-processing is published again twice, once for each stage. */
  lemma RepublishedTwice(horizon: Time) returns (events: seq<Event>)
    ensures Possible(Beginning(7, "", 0), 0, events, horizon)
    ensures OnceWins(Beginning(7, "", 0), events, horizon) == 2
  {
    hide Possible, Reach, OnceWins, ValidKey;
    PlainKey();
    var w := Beginning(7, "", 0);
    events := Generated(horizon);
    events := Then(w, events, Event(Look, 0), horizon);
    events := Then(w, events, Event(CheckCall(ClaimCheck(1)), 0), horizon);
    events := Then(w, events, Event(CheckCall(ClaimRepublishOnce(Some(0))), 1), horizon);
    events := Then(w, events, Made(LeaseCall(Acquire(2, Postprocess, SECOND)), 1), horizon);
    events := Then(w, events, Made(StageCall(2, RecordVerified("k")), 2), horizon);
    events := Then(w, events, Event(CheckCall(ClaimRepublishOnce(Some(2))), 3), horizon);
  }

  lemma {:induction false} RepublicationsBounded(id: int, fingerprint: string, start: Time, events: seq<Event>,
                                                 horizon: Time) returns (now: Time)
    requires Possible(Beginning(id, fingerprint, start), start, events, horizon)
    ensures now == if events == [] then start else events[|events| - 1].at
    ensures var first := Beginning(id, fingerprint, start);
            var w := Reach(first, events, horizon);
            && Good(w, now) && OnceWins(first, events, horizon) + Left(w) <= 2 + Forgets(events)
            && (w.t.job.acceptedAt.None? ==> OnceWins(first, events, horizon) == 0)
    decreases |events|
  {
    hide Next, Enabled, OnceWin, Good, Left;
    var first := Beginning(id, fingerprint, start);
    now := start;
    if events == [] {
      BeginningGood(id, fingerprint, start);
    } else {
      var n := |events| - 1;
      PossiblePrefix(first, start, events, horizon);
      var before := RepublicationsBounded(id, fingerprint, start, events[..n], horizon);
      var w := Reach(first, events[..n], horizon);
      now := events[n].at;
      NextBounded(w, events[n], before, horizon);
    }
  }

  lemma BeginningGood(id: int, fingerprint: string, start: Time)
    ensures var w := Beginning(id, fingerprint, start);
            Good(w, start) && Left(w) <= 2
  {
    InitInvariant(id, fingerprint, start);
  }

  lemma NextBounded(w: World, e: Event, t0: Time, horizon: Time)
    requires Good(w, t0) && t0 <= e.at && Enabled(w, e.act)
    ensures var w' := Next(w, e, horizon);
            && Good(w', e.at) && Left(w') <= 2
            && (w.t.job.acceptedAt.None? ==> !OnceWin(w, e))
            && (w.t.job.acceptedAt.Some? ==>
                  && w'.t.job.acceptedAt.Some?
                  && (if OnceWin(w, e) then 1 else 0) + Left(w') <= Left(w) + if IsForget(e) then 1 else 0)
  {
    NextGood(w, e, t0, horizon);
    if w.t.job.acceptedAt.Some? { ClaimsAreUsedUp(w, e, t0, horizon); }
    hide Inv, Step;
  }

  // ----- claims over time -----

  predicate PublicationWin(w: World, e: Event) {
    && e.act.CheckCall? && (e.act.call.ClaimRepublish? || e.act.call.ClaimRepublishOnce?)
    && Wins(e.act.call, w.check, e.at)
  }

  predicate CheckWin(w: World, e: Event) {
    e.act.CheckCall? && e.act.call.ClaimCheck? && Wins(e.act.call, w.check, e.at)
  }

  lemma ReachNext(w: World, events: seq<Event>, m: nat, horizon: Time)
    requires m < |events|
    ensures Reach(w, events[..m + 1], horizon) == Next(Reach(w, events[..m], horizon), events[m], horizon)
  {
    hide Next;
    assert events[..m + 1][..m] == events[..m];
  }

  /** A publication on record is not forgotten by anything but its own failure. */
  lemma {:induction false} PublicationStays(w: World, start: Time, events: seq<Event>, i: nat, m: nat, horizon: Time)
    requires Possible(w, start, events, horizon) && i < m <= |events|
    requires PublicationWin(Reach(w, events[..i], horizon), events[i])
    requires forall k :: i < k < m ==> !IsForget(events[k])
    ensures var at := Published(Reach(w, events[..m], horizon)); at.Some? && events[i].at <= at.value
    decreases m
  {
    hide Reach, Enabled, Step;
    ReachNext(w, events, m - 1, horizon);
    if i + 1 < m { PublicationStays(w, start, events, i, m - 1, horizon); }
  }

  /** Two publications claimed by the interval lie an interval apart, unless one failed in between. */
  lemma RepublicationsApart(w: World, start: Time, events: seq<Event>, i: nat, k: nat, horizon: Time)
    requires Possible(w, start, events, horizon) && i < k < |events|
    requires PublicationWin(Reach(w, events[..i], horizon), events[i])
    requires PublicationWin(Reach(w, events[..k], horizon), events[k])
    requires forall m :: i < m < k ==> !IsForget(events[m])
    ensures match events[k].act.call
            case ClaimRepublish(interval) => events[i].at + interval <= events[k].at
            // a stage has begun in between
            case ClaimRepublishOnce(stage) => stage.Some? && events[i].at < stage.value
            case _ => true
  {
    hide Reach, Possible;
    PublicationStays(w, start, events, i, k, horizon);
  }

  /** No call before m makes the next check come sooner than gap after it. */
  predicate NoSooner(events: seq<Event>, i: nat, m: nat, gap: nat)
    requires i <= m <= |events|
  {
    forall k :: i <= k < m && events[k].act.CheckCall? ==>
      match events[k].act.call
      case ClaimCheck(interval) => gap <= interval
      case DeferCheck(wait) => gap <= wait
      case _ => true
  }

  lemma {:induction false} CheckStays(w: World, start: Time, events: seq<Event>, i: nat, m: nat, gap: nat,
                                      horizon: Time)
    requires Possible(w, start, events, horizon) && i < m <= |events|
    requires CheckWin(Reach(w, events[..i], horizon), events[i]) && NoSooner(events, i, m, gap)
    ensures var check := Reach(w, events[..m], horizon).check;
            check.Some? && events[i].at + gap <= check.value.nextAt
    decreases m
  {
    hide Reach, Enabled, Step;
    ReachNext(w, events, m - 1, horizon);
    if i + 1 < m { CheckStays(w, start, events, i, m - 1, gap, horizon); }
  }

  /** Any two checks won lie apart by the interval, or by a shorter wait a deferral in between asked for. */
  lemma ChecksApart(w: World, start: Time, events: seq<Event>, i: nat, k: nat, gap: nat, horizon: Time)
    requires Possible(w, start, events, horizon) && i < k < |events|
    requires CheckWin(Reach(w, events[..i], horizon), events[i])
    requires CheckWin(Reach(w, events[..k], horizon), events[k])
    requires NoSooner(events, i, k, gap)
    ensures events[i].at + gap <= events[k].at
  {
    hide Reach, Possible;
    CheckStays(w, start, events, i, k, gap, horizon);
  }
}

/** The query's order and limit over all jobs: nobody that is due waits for ever. */
module WatchdogQueue {
  import opened Basics
  import opened Jobs
  import opened Watchdog
  import opened WatchdogChecks

  /** Cycles in time order among these jobs, after each of which job is still due, and has not been checked. */
  ghost predicate Waits(job: int, jobs: set<int>, cycles: seq<Cycle>, tables: seq<CheckTable>, limit: nat) {
    && |tables| == |cycles| + 1
    && (forall i, k :: 0 <= i < k < |cycles| ==> cycles[i].now <= cycles[k].now)
    && (forall i :: 0 <= i < |cycles| ==> CycleCompleted(cycles[i], tables[i], tables[i + 1], limit))
    && (forall i :: 0 <= i < |cycles| ==>
          && cycles[i].due <= jobs && job in cycles[i].due - cycles[i].picked
          && CheckDue(Of(tables[i], job), cycles[i].now))
    && (forall i :: 0 <= i < |tables| ==> Of(tables[i], job) == Of(tables[0], job))
  }

  lemma WaitsBefore(job: int, jobs: set<int>, cycles: seq<Cycle>, tables: seq<CheckTable>, limit: nat)
    requires Waits(job, jobs, cycles, tables, limit) && cycles != []
    ensures Waits(job, jobs, cycles[..|cycles| - 1], tables[..|cycles|], limit)
  {
    hide CycleCompleted, CheckDue;
  }

  /** The jobs checked while one waits are all different ones: each is behind it from then on. */
  lemma {:induction false} CheckedMeanwhile(job: int, jobs: set<int>, cycles: seq<Cycle>, tables: seq<CheckTable>,
                                            limit: nat) returns (checked: set<int>)
    requires Waits(job, jobs, cycles, tables, limit)
    ensures checked <= jobs && job !in checked && |checked| == |cycles| * limit
    ensures cycles != [] ==> var last := tables[|cycles|];
            forall b <- checked :: b in last && cycles[0].now < last[b].nextAt
    decreases |cycles|
  {
    hide Answer, Before;
    checked := {};
    if cycles != [] {
      var n := |cycles| - 1;
      var c, before, after := cycles[n], tables[n], tables[n + 1];
      WaitsBefore(job, jobs, cycles, tables, limit);
      var earlier := CheckedMeanwhile(job, jobs, cycles[..n], tables[..n + 1], limit);
      PickedAreAhead(job, c, before, limit);
      assert Of(before, job) == Of(tables[0], job);
      assert earlier !! c.picked by {
        forall b | b in earlier && b in c.picked
          ensures false
        {
          Behind(before, b, job, cycles[0].now);
        }
      }
      checked := earlier + c.picked;
      assert |checked| == |earlier| + |c.picked|;
      assert n * limit + limit == |cycles| * limit;
    }
  }

  lemma PickedAreAhead(job: int, c: Cycle, checks: CheckTable, limit: nat)
    requires Answer(c.picked, c.due, checks, limit) && job in c.due - c.picked
    ensures |c.picked| == limit && c.picked <= c.due && forall b <- c.picked :: Before(checks, b, job)
  {
    assert |c.due - c.picked| == |c.due| - |c.picked|;
    assert c.due - c.picked != {};
  }

  lemma Behind(checks: CheckTable, b: int, job: int, now: Time)
    requires b in checks && now < checks[b].nextAt && CheckDue(Of(checks, job), now)
    ensures !Before(checks, b, job)
  {}

  /** A job that is due is checked before limit times the number of cycles reaches the number of all jobs. */
  lemma NoStarvation(job: int, jobs: set<int>, cycles: seq<Cycle>, tables: seq<CheckTable>, limit: nat)
    requires job in jobs && Waits(job, jobs, cycles, tables, limit)
    ensures |cycles| * limit < |jobs|
  {
    var checked := CheckedMeanwhile(job, jobs, cycles, tables, limit);
    Subset(checked + {job}, jobs);
    assert |checked + {job}| == |checked| + 1;
  }

  lemma {:induction false} Subset(a: set<int>, b: set<int>)
    requires a <= b
    ensures |a| <= |b|
  {
    assert b == a + (b - a);
    assert |b| == |a| + |b - a|;
  }
}
