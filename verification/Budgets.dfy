/** The four counters a worker raises before it may act: S3 bundles, text generations, fallbacks, result messages. */
module Budgets {
  import opened Basics
  import opened Jobs
  import opened Transitions
  import opened RowInvariant

  datatype Kind = S3Bundle | Generation | Fallback | Message

  function Limit(k: Kind): nat {
    match k
    case S3Bundle => S3_CHECK_LIMIT
    case Generation => LLM_GENERATION_LIMIT
    case Fallback => FALLBACK_LIMIT
    case Message => RESULT_MESSAGE_LIMIT
  }

  function Count(k: Kind, j: Job): nat {
    match k
    case S3Bundle => j.s3Attempts
    case Generation => j.llmAttempts
    case Fallback => j.fallbackAttempts
    case Message => j.messageAttempts
  }

  predicate ClaimOf(k: Kind, c: Command) {
    match k
    case S3Bundle => c.StageCall? && c.stage.ClaimS3Check?
    case Generation => c.StageCall? && c.stage.ClaimLlm?
    case Fallback => c.StageCall? && (c.stage.ClaimFallback? || c.stage.BeginFallback?)
    case Message => c.ResultCall? && c.result.ClaimMessage?
  }

  /** How many calls of the run claimed successfully: each licenses one S3 bundle, generation, fallback or send. */
  function Claims(k: Kind, t: Table, calls: seq<Call>, horizon: Time): nat {
    if calls == [] then 0
    else
      var n := |calls| - 1;
      var before := Run(t, calls[..n], horizon);
      Claims(k, t, calls[..n], horizon)
      + if ClaimOf(k, calls[n].command) && Applies(calls[n].command, before, calls[n].at, horizon) then 1 else 0
  }

  lemma RowCounts(k: Kind, c: Command, j: Job, now: Time)
    requires !c.AttemptCall? && !ClaimOf(k, c)
    ensures Count(k, RowStep(c, j, now)) == Count(k, j)
  {}

  lemma ClaimCounts(k: Kind, c: Command, t: Table, now: Time, horizon: Time)
    requires ClaimOf(k, c)
    ensures Count(k, Step(c, t, now, horizon).job) == Count(k, t.job) + if Applies(c, t, now, horizon) then 1 else 0
  {}

  lemma AttemptCounts(k: Kind, c: AttemptCommand, t: Table, now: Time, horizon: Time)
    ensures Count(k, AttemptStep(c, t, now, horizon).job) == Count(k, t.job)
  {
    var j' := AttemptStep(c, t, now, horizon).job;
    assert j'.s3Attempts == t.job.s3Attempts && j'.llmAttempts == t.job.llmAttempts;
    assert j'.fallbackAttempts == t.job.fallbackAttempts && j'.messageAttempts == t.job.messageAttempts;
  }

  lemma StepCounts(k: Kind, c: Command, t: Table, now: Time, horizon: Time)
    ensures Count(k, Step(c, t, now, horizon).job)
            == Count(k, t.job) + if ClaimOf(k, c) && Applies(c, t, now, horizon) then 1 else 0
  {
    if ClaimOf(k, c) {
      ClaimCounts(k, c, t, now, horizon);
    } else {
      hide RowStep, AttemptStep;
      match c
      case AttemptCall(a) => AttemptCounts(k, a, t, now, horizon);
      case _ => RowCounts(k, c, t.job, now);
    }
  }

  lemma {:induction false} CountersCount(k: Kind, t: Table, calls: seq<Call>, horizon: Time)
    ensures Count(k, Run(t, calls, horizon).job) == Count(k, t.job) + Claims(k, t, calls, horizon)
    decreases |calls|
  {
    hide Step, Applies, ClaimOf;
    if calls != [] {
      var n := |calls| - 1;
      CountersCount(k, t, calls[..n], horizon);
      StepCounts(k, calls[n].command, Run(t, calls[..n], horizon), calls[n].at, horizon);
    }
  }

  /** Across all workers, redeliveries, crashes and stages of a job, no more is ever claimed than its limit. */
  lemma BudgetsHold(k: Kind, id: int, fingerprint: string, start: Time, calls: seq<Call>, horizon: Time)
    requires Lawful(Table(NewJob(id, fingerprint, start), []), calls, horizon)
    ensures Claims(k, Table(NewJob(id, fingerprint, start), []), calls, horizon) <= Limit(k)
  {
    var t := Table(NewJob(id, fingerprint, start), []);
    InitInvariant(id, fingerprint, start);
    RunKeepsInvariant(t, calls, horizon);
    CountersCount(k, t, calls, horizon);
  }
}

/**
 Runs of executions that claim before they act. An execution holds the number its claim got until it makes the one call
 that number is for, or crashes; any number of executions of any workers interleave with everything else.
 */
module Licences {
  import opened Basics
  import opened Jobs
  import opened Transitions
  import opened RowInvariant
  import opened Budgets

  type ExecutionId = nat

  /** A call to the outside: an S3 bundle, a text generation, a fallback generation or a send, under its number. */
  datatype OutsideCall = OutsideCall(execution: ExecutionId, number: nat)

  datatype World = World(table: Table, now: Time, held: map<ExecutionId, nat>, made: seq<OutsideCall>)

  datatype Action =
    | Tick(now: Time)
    | Others(c: Command)
    | Claim(i: ExecutionId, c: Command)
    | Make(i: ExecutionId)
    | Crash(i: ExecutionId)

  predicate Enabled(k: Kind, w: World, a: Action) {
    match a
    case Tick(now) => w.now <= now
    case Others(c) => Honest(c, w.table)
    // an execution claims again only after it has used what it holds
    case Claim(i, c) => i !in w.held && ClaimOf(k, c)
    case Make(i) => i in w.held
    case Crash(i) => true
  }

  function Do(k: Kind, w: World, a: Action, horizon: Time): World
    requires Enabled(k, w, a)
  {
    match a
    case Tick(now) => w.(now := now)
    case Others(c) => w.(table := Step(c, w.table, w.now, horizon))
    case Claim(i, c) =>
      var t' := Step(c, w.table, w.now, horizon);
      w.(table := t', held := if Applies(c, w.table, w.now, horizon) then w.held[i := Count(k, t'.job)] else w.held)
    case Make(i) => w.(held := w.held - {i}, made := w.made + [OutsideCall(i, w.held[i])])
    case Crash(i) => w.(held := w.held - {i})
  }

  function Run(k: Kind, w: World, schedule: seq<Action>, horizon: Time): World {
    if schedule == [] then w
    else
      var n := |schedule| - 1;
      var before := Run(k, w, schedule[..n], horizon);
      if Enabled(k, before, schedule[n]) then Do(k, before, schedule[n], horizon) else before
  }

  function Start(id: int, fingerprint: string, now: Time): World {
    World(Table(NewJob(id, fingerprint, now), []), now, map[], [])
  }

  /** Every number is held or used once at the most, and none is above the counter. */
  ghost predicate Numbered(held: map<ExecutionId, nat>, made: seq<OutsideCall>, count: nat) {
    && (forall i <- held :: 1 <= held[i] <= count)
    && (forall m :: 0 <= m < |made| ==> 1 <= made[m].number <= count)
    && (forall i <- held, j <- held :: i != j ==> held[i] != held[j])
    && (forall m, n :: 0 <= m < n < |made| ==> made[m].number != made[n].number)
    && (forall i <- held, m :: 0 <= m < |made| ==> held[i] != made[m].number)
  }

  lemma MadeUsesNumber(held: map<ExecutionId, nat>, made: seq<OutsideCall>, count: nat, i: ExecutionId)
    requires Numbered(held, made, count) && i in held
    ensures Numbered(held - {i}, made + [OutsideCall(i, held[i])], count)
  {
    var after := made + [OutsideCall(i, held[i])];
    assert forall m :: 0 <= m < |made| ==> after[m] == made[m];
  }

  lemma CountKept(k: Kind, c: Command, t: Table, now: Time, horizon: Time)
    ensures var count := Count(k, Step(c, t, now, horizon).job);
            && Count(k, t.job) <= count
            && (ClaimOf(k, c) ==> count == Count(k, t.job) + if Applies(c, t, now, horizon) then 1 else 0)
  {
    hide Step, Applies, ClaimOf, Count;
    StepCounts(k, c, t, now, horizon);
  }

  lemma ClaimsAreHonest(k: Kind, c: Command, t: Table)
    requires ClaimOf(k, c)
    ensures Honest(c, t)
  {}

  ghost predicate Good(k: Kind, w: World) { Inv(w.table) && Numbered(w.held, w.made, Count(k, w.table.job)) }

  lemma NumberedGrows(held: map<ExecutionId, nat>, made: seq<OutsideCall>, count: nat, count': nat)
    requires Numbered(held, made, count) && count <= count'
    ensures Numbered(held, made, count')
  {}

  /** A fresh number is above all that were given out before. */
  lemma NumberedHolds(held: map<ExecutionId, nat>, made: seq<OutsideCall>, count: nat, i: ExecutionId)
    requires Numbered(held, made, count) && i !in held
    ensures Numbered(held[i := count + 1], made, count + 1)
  {}

  lemma NumberedDrops(held: map<ExecutionId, nat>, made: seq<OutsideCall>, count: nat, i: ExecutionId)
    requires Numbered(held, made, count)
    ensures Numbered(held - {i}, made, count)
  {}

  lemma ClaimKeeps(k: Kind, w: World, i: ExecutionId, c: Command, horizon: Time)
    requires Good(k, w) && Enabled(k, w, Claim(i, c))
    ensures Good(k, Do(k, w, Claim(i, c), horizon))
  {
    hide Inv, Step, Applies, Count, ClaimOf, Honest, Evolves, Numbered;
    ClaimsAreHonest(k, c, w.table);
    StepKeepsInvariant(c, w.table, w.now, horizon);
    CountKept(k, c, w.table, w.now, horizon);
    NumberedHolds(w.held, w.made, Count(k, w.table.job), i);
  }

  lemma OthersKeep(k: Kind, w: World, c: Command, horizon: Time)
    requires Good(k, w) && Honest(c, w.table)
    ensures Good(k, Do(k, w, Others(c), horizon))
  {
    hide Inv, Step, Applies, Count, ClaimOf, Honest, Evolves, Numbered;
    StepKeepsInvariant(c, w.table, w.now, horizon);
    CountKept(k, c, w.table, w.now, horizon);
    NumberedGrows(w.held, w.made, Count(k, w.table.job), Count(k, Step(c, w.table, w.now, horizon).job));
  }

  lemma DoKeeps(k: Kind, w: World, a: Action, horizon: Time)
    requires Good(k, w) && Enabled(k, w, a)
    ensures Good(k, Do(k, w, a, horizon))
  {
    hide Inv, Step, Applies, Count, ClaimOf, Honest, Numbered;
    match a
    case Tick(_) =>
    case Others(c) => OthersKeep(k, w, c, horizon);
    case Claim(i, c) => ClaimKeeps(k, w, i, c, horizon);
    case Make(i) => MadeUsesNumber(w.held, w.made, Count(k, w.table.job), i);
    case Crash(i) => NumberedDrops(w.held, w.made, Count(k, w.table.job), i);
  }

  lemma {:induction false} RunKeeps(k: Kind, w: World, schedule: seq<Action>, horizon: Time)
    requires Good(k, w)
    ensures Good(k, Run(k, w, schedule, horizon))
    decreases |schedule|
  {
    hide Good, Enabled, Do;
    if schedule != [] {
      var n := |schedule| - 1;
      RunKeeps(k, w, schedule[..n], horizon);
      var before := Run(k, w, schedule[..n], horizon);
      if Enabled(k, before, schedule[n]) { DoKeeps(k, before, schedule[n], horizon); }
    }
  }

  lemma WithinLimit(k: Kind, t: Table)
    requires Inv(t)
    ensures Count(k, t.job) <= Limit(k)
  {}

  /** In every run, calls never outnumber claims, nor claims their limit: 2 bundles, 4 texts, 1 fallback, 3 sends. */
  lemma CallsWithinClaims(k: Kind, id: int, fingerprint: string, now: Time, schedule: seq<Action>, horizon: Time)
    ensures var w := Run(k, Start(id, fingerprint, now), schedule, horizon);
            |w.made| <= Count(k, w.table.job) <= Limit(k)
  {
    InitInvariant(id, fingerprint, now);
    RunKeeps(k, Start(id, fingerprint, now), schedule, horizon);
    var w := Run(k, Start(id, fingerprint, now), schedule, horizon);
    hide Run, Inv;
    WithinLimit(k, w.table);
    var numbers := seq(|w.made|, m requires 0 <= m < |w.made| => w.made[m].number);
    assert forall m :: 0 <= m < |numbers| ==> numbers[m] == w.made[m].number;
    DistinctBounded(numbers, Count(k, w.table.job));
  }
}
