/**
 Leases over whole runs: the row holds one token at a time, workers hold on to tokens for as long as they like, and the
 database clock never goes back. Every grant is remembered with the period it was good for.
 */
module LeaseRuns {
  import opened Basics
  import opened Jobs
  import opened Transitions

  /** until: the latest expiry written for the token, or the instant the lease was given up. */
  datatype Grant = Grant(token: Token, at: Time, until: Time)

  datatype World = World(table: Table, now: Time, grants: seq<Grant>)

  /** Any call by anybody, with any token; only a grant draws a token nobody has had before. */
  datatype Action = Tick(now: Time) | Call(c: Command)

  predicate Enabled(w: World, a: Action) {
    match a
    case Tick(now) => w.now <= now
    case Call(LeaseCall(Acquire(token, _, _))) => forall g <- w.grants :: g.token != token
    case Call(_) => true
  }

  /** The row's lease as the last grant's period remembers it. */
  function Noted(grants: seq<Grant>, lease: Option<Lease>, had: bool, now: Time): seq<Grant> {
    if grants == [] || (lease.None? && !had) then grants
    else
      var n := |grants| - 1;
      grants[n := grants[n].(until := if lease.Some? then lease.value.until else now)]
  }

  function Do(w: World, a: Action, horizon: Time): World {
    match a
    case Tick(now) => w.(now := now)
    case Call(c) =>
      var t' := Step(c, w.table, w.now, horizon);
      var granted := c.LeaseCall? && c.lease.Acquire? && Applies(c, w.table, w.now, horizon);
      w.(table := t',
         grants := if granted then w.grants + [Grant(c.lease.token, w.now, w.now + c.lease.duration)]
                   else Noted(w.grants, t'.job.lease, w.table.job.lease.Some?, w.now))
  }

  function Run(w: World, schedule: seq<Action>, horizon: Time): World {
    if schedule == [] then w
    else
      var last := schedule[|schedule| - 1];
      var before := Run(w, schedule[..|schedule| - 1], horizon);
      if Enabled(before, last) then Do(before, last, horizon) else before
  }

  predicate Good(w: World) {
    var n := |w.grants| - 1;
    && (forall i, k :: 0 <= i < k <= n ==>
          w.grants[i].token != w.grants[k].token && w.grants[i].until <= w.grants[k].at)
    && (forall i :: 0 <= i <= n ==> w.grants[i].at <= w.grants[i].until && w.grants[i].at <= w.now)
    && match w.table.job.lease
       case Some(l) => n >= 0 && w.grants[n].token == l.token && w.grants[n].until == l.until
       case None => n >= 0 ==> w.grants[n].until <= w.now
  }

  /** What a step may do to the lease column. */
  predicate LeaseMove(t: Table, t': Table, now: Time) {
    || t'.job.lease == t.job.lease
    || (t.job.lease.Some? && now < t.job.lease.value.until
        && (t'.job.lease.None?
            || (t'.job.lease.value.token == t.job.lease.value.token && now < t'.job.lease.value.until)))
  }

  lemma RowLeaseMove(c: Command, j: Job, now: Time)
    requires !c.AttemptCall? && !(c.LeaseCall? && c.lease.Acquire?)
    ensures LeaseMove(Table(j, []), Table(RowStep(c, j, now), []), now)
  {}

  lemma AttemptKeepsLease(c: AttemptCommand, t: Table, now: Time, horizon: Time)
    ensures AttemptStep(c, t, now, horizon).job.lease == t.job.lease
  {}

  lemma GrantMove(c: Command, t: Table, now: Time, horizon: Time)
    requires c.LeaseCall? && c.lease.Acquire?
    ensures var t' := Step(c, t, now, horizon);
            if Applies(c, t, now, horizon)
            then LeaseFree(t.job, now) && c.lease.duration > 0
                 && t'.job.lease == Some(Lease(c.lease.token, now + c.lease.duration))
            else t' == t
  {}

  /** Any call but a grant moves the lease, if at all, on behalf of the token that is valid right then. */
  lemma CallMoves(c: Command, t: Table, now: Time, horizon: Time)
    requires !(c.LeaseCall? && c.lease.Acquire?)
    ensures LeaseMove(t, Step(c, t, now, horizon), now)
  {
    hide RowStep, AttemptStep;
    if c.AttemptCall? { AttemptKeepsLease(c.attempt, t, now, horizon); } else { RowLeaseMove(c, t.job, now); }
  }

  /** A later world of w: the same grants, all but the last of them settled, and possibly more. */
  predicate Extends(w: World, w': World) {
    && |w.grants| <= |w'.grants|
    && (forall i :: 0 <= i < |w.grants| ==>
          w'.grants[i].token == w.grants[i].token && w'.grants[i].at == w.grants[i].at)
    && (forall i :: 0 <= i < |w.grants| - 1 ==> w'.grants[i] == w.grants[i])
  }

  lemma DoKeeps(w: World, a: Action, horizon: Time)
    requires Good(w) && Enabled(w, a)
    ensures Good(Do(w, a, horizon)) && Extends(w, Do(w, a, horizon))
  {
    hide Step, Applies;
    if a.Call? {
      if a.c.LeaseCall? && a.c.lease.Acquire? {
        GrantMove(a.c, w.table, w.now, horizon);
      } else {
        CallMoves(a.c, w.table, w.now, horizon);
      }
    }
  }

  lemma {:induction false} RunKeeps(w: World, schedule: seq<Action>, horizon: Time)
    requires Good(w)
    ensures Good(Run(w, schedule, horizon)) && Extends(w, Run(w, schedule, horizon))
  {
    hide Enabled, Do, Good;
    if schedule != [] {
      var n := |schedule| - 1;
      RunKeeps(w, schedule[..n], horizon);
      var before := Run(w, schedule[..n], horizon);
      if Enabled(before, schedule[n]) { DoKeeps(before, schedule[n], horizon); }
    }
  }

  /** A job without a lease, before anyone has asked for one. */
  predicate Fresh(w: World) { w.grants == [] && w.table.job.lease.None? }

  /** The periods of different grants never overlap: each one is over by the time the next begins. */
  lemma PeriodsDisjoint(w: World, schedule: seq<Action>, horizon: Time, i: nat, k: nat)
    requires Fresh(w) && i < k < |Run(w, schedule, horizon).grants|
    ensures var g := Run(w, schedule, horizon).grants;
            g[i].token != g[k].token && g[i].at <= g[i].until <= g[k].at
  {
    RunKeeps(w, schedule, horizon);
  }

  /** A token is valid at an instant of a run exactly if it is the latest granted and its period is not over. */
  lemma ValidExactly(w: World, schedule: seq<Action>, horizon: Time, token: Token)
    requires Fresh(w)
    ensures var w' := Run(w, schedule, horizon);
            LeaseValid(w'.table.job, token, w'.now) <==>
              w'.grants != [] && var last := w'.grants[|w'.grants| - 1]; last.token == token && w'.now < last.until
  {
    RunKeeps(w, schedule, horizon);
  }

  /** No command that presents a token applies unless that token is valid. */
  lemma TokensGuard(c: Command, t: Table, now: Time, horizon: Time)
    requires TokenOf(c).Some? && Applies(c, t, now, horizon)
    ensures LeaseValid(t.job, TokenOf(c).value, now)
  {}

  /** A refused command changes nothing, whatever it is. */
  lemma RefusedDoesNothing(c: Command, t: Table, now: Time, horizon: Time)
    requires TokenOf(c).Some? && !Applies(c, t, now, horizon)
    ensures Step(c, t, now, horizon) == t
  {}

  /** Once a token has been succeeded by another, nothing its holder does has an effect again, not even a renewal. */
  lemma StaleWorkersAreFenced(w: World, schedule: seq<Action>, later: seq<Action>, horizon: Time, i: nat, c: Command)
    requires Fresh(w) && i < |Run(w, schedule, horizon).grants| - 1
    requires TokenOf(c) == Some(Run(w, schedule, horizon).grants[i].token)
    ensures var w' := Run(Run(w, schedule, horizon), later, horizon);
            !Applies(c, w'.table, w'.now, horizon) && Step(c, w'.table, w'.now, horizon) == w'.table
  {
    var w1 := Run(w, schedule, horizon);
    RunKeeps(w, schedule, horizon);
    RunKeeps(w1, later, horizon);
    var w2 := Run(w1, later, horizon);
    assert w2.grants[i].token != w2.grants[|w2.grants| - 1].token;
    hide Applies, Step;
    if Applies(c, w2.table, w2.now, horizon) {
      TokensGuard(c, w2.table, w2.now, horizon);
      assert false;
    }
    RefusedDoesNothing(c, w2.table, w2.now, horizon);
  }
}
