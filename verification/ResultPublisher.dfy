/** Everything the other workers, the webhook and the watchdog may do between two statements of one worker. */
module Interference {
  import opened Jobs
  import opened Transitions
  import opened RowInvariant
  import opened Repository

  /** The row as a worker may find it later on. */
  predicate Later(t: Table, t': Table) { Inv(t') && Evolves(t.job, t'.job) }

  lemma LaterReflexive(t: Table)
    requires Inv(t)
    ensures Later(t, t)
  {
    EvolvesReflexive(t.job);
  }

  lemma LaterTransitive(a: Table, b: Table, c: Table)
    requires Later(a, b) && Later(b, c)
    ensures Later(a, c)
  {
    EvolvesTransitive(a.job, b.job, c.job);
  }

  lemma LaterStep(a: Table, b: Table, c: Command, now: Time, horizon: Time)
    requires Later(a, b) && Inv(b) && Honest(c, b)
    ensures Later(a, Step(c, b, now, horizon)) && Later(b, Step(c, b, now, horizon))
  {
    hide Evolves, Step, Inv, Honest;
    StepKeepsInvariant(c, b, now, horizon);
    EvolvesTransitive(a.job, b.job, Step(c, b, now, horizon).job);
  }

  /** Between before and after one call was made, and nothing after it; others may have acted first. */
  ghost predicate OneCall(before: Table, c: Command, after: Table, now: Time, horizon: Time, applied: bool) {
    exists mid :: Later(before, mid) && after == Step(c, mid, now, horizon) && applied == Applies(c, mid, now, horizon)
  }

  /** Callers know no more of the other actors than this contract, so what they prove holds whatever those do. */
  method Meanwhile(db: Database)
    requires db.table.Some? && Inv(db.table.value)
    modifies db`table, db`clock
    ensures db.table.Some? && Later(old(db.table.value), db.table.value) && old(db.clock) <= db.clock
  {
    EvolvesReflexive(db.table.value.job);
  }
}

/** One attempt of the publisher to deliver a job's stored result. */
module ResultPublisher {
  import opened Basics
  import opened Jobs
  import opened Transitions
  import opened RowInvariant
  import opened Repository
  import opened Interference
  import opened PublishRuns

  datatype PublishOutcome = SentAndRecorded | RetryLater | GaveUp | Skipped | HeldOff

  const CONFIG_BACKOFF := 300 * SECOND

  /** Pause after the given attempt, unless the queue itself is misconfigured. */
  function Backoff(attempt: nat, config: bool): int {
    if config then CONFIG_BACKOFF else if attempt <= 1 then 5 * SECOND else 30 * SECOND
  }

  /** The result queue as the publisher sees it: what it was asked to deliver, and what it answered. */
  class ResultQueue {
    var sends: seq<Send>

    constructor ()
      ensures sends == []
    {
      sends := [];
    }

    method SendMessage(message: Send)
      modifies `sends
      ensures sends == old(sends) + [message]
    {
      sends := sends + [message];
    }
  }

  // ----- what the publisher does, in order -----

  datatype Deed = Called(command: Command, applied: bool) | SendMessage(message: Send)

  /** One thing the publisher did, and row and clock right after it. */
  datatype Taken = Taken(deed: Deed, row: Table, now: Time)

  /** Others may act between two things the publisher does, in the ways they always may. */
  ghost predicate Follows(before: Table, s: Taken, horizon: Time) {
    match s.deed
    case Called(c, applied) => OneCall(before, c, s.row, s.now, horizon, applied)
    case SendMessage(_) => Later(before, s.row)
  }

  /** The row after the first n things. */
  function RowAt(before: Table, steps: seq<Taken>, n: nat): Table
    requires n <= |steps|
  {
    if n == 0 then before else steps[n - 1].row
  }

  ghost predicate Chain(before: Table, steps: seq<Taken>, horizon: Time) {
    forall i :: 0 <= i < |steps| ==> Follows(RowAt(before, steps, i), steps[i], horizon)
  }

  function Last(before: Table, steps: seq<Taken>): Table { RowAt(before, steps, |steps|) }

  lemma {:induction false} ChainBoth(before: Table, a: seq<Taken>, b: seq<Taken>, horizon: Time)
    requires Chain(before, a, horizon) && Chain(Last(before, a), b, horizon)
    ensures Chain(before, a + b, horizon) && Last(before, a + b) == Last(Last(before, a), b)
  {
    hide Follows;
    var both := a + b;
    forall i | 0 <= i < |both|
      ensures Follows(RowAt(before, both, i), both[i], horizon)
    {
      if i < |a| {
        assert Follows(RowAt(before, a, i), a[i], horizon);
      } else {
        var k := i - |a|;
        assert Follows(RowAt(Last(before, a), b, k), b[k], horizon);
      }
    }
  }

  lemma {:induction false} ChainMore(before: Table, steps: seq<Taken>, s: Taken, horizon: Time)
    requires Chain(before, steps, horizon) && Follows(Last(before, steps), s, horizon)
    ensures Chain(before, steps + [s], horizon) && Last(before, steps + [s]) == s.row
  {
    hide Follows;
    ChainBoth(before, steps, [s], horizon);
  }

  predicate IsCall(d: Deed, c: Command) { d.Called? && d.command == c }

  /** Having sent: record a success; failing that give up after the last attempt, or keep the lease for a pause. */
  predicate AfterSend(deeds: seq<Taken>, token: Token, s: Send, config: bool, outcome: PublishOutcome, release: bool) {
    var mark := ResultCall(token, MarkPublished(StatusOf(s.payload)));
    var marks := if s.outcome.SendSucceeded? then 1 else 0;
    && |deeds| >= marks && (marks == 1 ==> IsCall(deeds[0].deed, mark))
    && match outcome
       case SentAndRecorded => marks == 1 && |deeds| == 1 && deeds[0].deed.applied && !release
       case GaveUp =>
         && s.attempt >= RESULT_MESSAGE_LIMIT && |deeds| == marks + 1 && release
         && (marks == 1 ==> !deeds[0].deed.applied) && IsCall(deeds[marks].deed, ResultCall(token, MarkExhausted))
       case RetryLater =>
         && s.attempt < RESULT_MESSAGE_LIMIT && |deeds| == marks + 1
         && (marks == 1 ==> !deeds[0].deed.applied)
         && IsCall(deeds[marks].deed,
                   LeaseCall(Renew(token, (if config then 300 else if s.attempt <= 1 then 5 else 30) * SECOND)))
         && release == !deeds[marks].deed.applied
       case _ => false
  }

  /** The row is still ours, and its attempts are all claimed. */
  predicate UsedUp(j: Job, token: Token, now: Time) {
    !Terminal(j) && LeaseValid(j, token, now) && j.messageAttempts >= RESULT_MESSAGE_LIMIT
  }

  /** The claim, the send under the number claimed, and the record, in that order; without a claim nothing is sent. */
  predicate ClaimedTurn(deeds: seq<Taken>, token: Token, payload: Payload, answer: SendOutcome, config: bool,
                        outcome: PublishOutcome, release: bool)
  {
    && deeds != [] && IsCall(deeds[0].deed, ResultCall(token, ClaimMessage))
    && if !deeds[0].deed.applied then
         && release
         && if UsedUp(deeds[0].row.job, token, deeds[0].now)
            then |deeds| == 2 && IsCall(deeds[1].deed, ResultCall(token, MarkExhausted)) && outcome.GaveUp?
            else |deeds| == 1 && outcome.Skipped?
       else
         var s := Send(deeds[0].row.job.messageAttempts, payload, answer);
         && |deeds| >= 2 && deeds[1].deed == SendMessage(s)
         && AfterSend(deeds[2..], token, s, config, outcome, release)
  }

  /** The checks on the granted row, and only then a claim. */
  predicate InTurn(deeds: seq<Taken>, token: Token, job: Job, configured: bool, answer: SendOutcome, config: bool,
                   outcome: PublishOutcome, release: bool)
  {
    if job.payload.None? || job.messageStatus != Pending then deeds == [] && outcome.Skipped? && release
    else if job.messageAttempts >= RESULT_MESSAGE_LIMIT then
      |deeds| == 1 && IsCall(deeds[0].deed, ResultCall(token, MarkExhausted)) && outcome.GaveUp? && release
    else if !configured then
      && |deeds| == 1 && IsCall(deeds[0].deed, LeaseCall(Renew(token, 300 * SECOND))) && outcome.HeldOff?
      && release == !deeds[0].deed.applied
    else ClaimedTurn(deeds, token, job.payload.value, answer, config, outcome, release)
  }

  /** What all of that asks the queue to deliver. */
  function Sends(steps: seq<Taken>): seq<Send> {
    if steps == [] then []
    else
      var n := |steps| - 1;
      Sends(steps[..n]) + if steps[n].deed.SendMessage? then [steps[n].deed.message] else []
  }

  lemma {:induction false} NoSends(steps: seq<Taken>)
    requires forall s <- steps :: !s.deed.SendMessage?
    ensures Sends(steps) == []
  {
    if steps != [] { NoSends(steps[..|steps| - 1]); }
  }

  // ----- what the calls leave behind -----

  /** A row that waits for its result to be published, with nobody at work on it. */
  predicate Grantable(j: Job, now: Time, lease: int) {
    !Terminal(j) && j.nextAction == Some(PublishResult) && LeaseFree(j, now) && 0 < lease <= MAX_LEASE
  }

  lemma GrantSets(token: Token, lease: int, t: Table, now: Time, horizon: Time)
    ensures var c := LeaseCall(Acquire(token, PublishResult, lease));
            && (Applies(c, t, now, horizon) <==> Grantable(t.job, now, lease))
            && Step(c, t, now, horizon) ==
                 if Grantable(t.job, now, lease)
                 then Table(t.job.(lease := Some(Lease(token, now + lease)), updatedAt := now), t.attempts) else t
  {}

  lemma RenewSets(token: Token, seconds: int, t: Table, now: Time, horizon: Time)
    ensures var c := LeaseCall(Renew(token, seconds));
            Applies(c, t, now, horizon) ==> Step(c, t, now, horizon).job.lease == Some(Lease(token, now + seconds))
  {}

  lemma ExhaustSets(token: Token, t: Table, now: Time, horizon: Time)
    ensures var c := ResultCall(token, MarkExhausted);
            Applies(c, t, now, horizon) ==> Step(c, t, now, horizon).job.messageStatus == RetryExhausted
  {}

  lemma MarkSets(token: Token, final: Status, t: Table, now: Time, horizon: Time)
    ensures var c := ResultCall(token, MarkPublished(final));
            Applies(c, t, now, horizon) ==> Settled(Step(c, t, now, horizon).job)
  {}

  class ResultPublishProcessor {
    const state: AsyncJobStateRepository
    const queue: ResultQueue

    constructor (state: AsyncJobStateRepository, queue: ResultQueue)
      ensures this.state == state && this.queue == queue
    {
      this.state, this.queue := state, queue;
    }

    /** Keep the lease for the pause, so that no other loop sends in between. */
    method Hold(token: Token, seconds: int) returns (held: bool)
      requires state.db.table.Some? && Inv(state.db.table.value)
      modifies state.db`table, state.db`clock
      ensures state.db.table.Some? && Later(old(state.db.table.value), state.db.table.value)
      ensures OneCall(old(state.db.table.value), LeaseCall(Renew(token, seconds)), state.db.table.value,
                      state.db.clock, state.db.horizon, held)
      ensures held ==> state.db.table.value.job.lease == Some(Lease(token, state.db.clock + seconds))
    {
      hide Inv, Evolves, Step, Applies, TokenOf, LeaseValid;
      ghost var t := state.db.table.value;
      Meanwhile(state.db);
      LaterStep(t, state.db.table.value, LeaseCall(Renew(token, seconds)), state.db.clock, state.db.horizon);
      RenewSets(token, seconds, state.db.table.value, state.db.clock, state.db.horizon);
      var renewed := state.RenewLease(token, seconds);
      held := renewed.applied;
    }

    /** Give up; recorded says whether the row was still ours to give up, and its attempts used up. */
    method Exhaust(token: Token) returns (recorded: bool)
      requires state.db.table.Some? && Inv(state.db.table.value)
      modifies state.db`table, state.db`clock
      ensures state.db.table.Some? && Later(old(state.db.table.value), state.db.table.value)
      ensures OneCall(old(state.db.table.value), ResultCall(token, MarkExhausted), state.db.table.value,
                      state.db.clock, state.db.horizon, recorded)
      ensures recorded ==> state.db.table.value.job.messageStatus == RetryExhausted
    {
      hide Inv, Evolves, Step, Applies;
      ghost var t := state.db.table.value;
      Meanwhile(state.db);
      LaterStep(t, state.db.table.value, ResultCall(token, MarkExhausted), state.db.clock, state.db.horizon);
      ExhaustSets(token, state.db.table.value, state.db.clock, state.db.horizon);
      var marked := state.MarkResultRetryExhausted(token);
      recorded := marked.applied;
    }

    /** Take the next attempt number before anything is sent. */
    method ClaimAttempt(token: Token) returns (change: StateChange)
      requires state.db.table.Some? && Inv(state.db.table.value)
      modifies state.db`table, state.db`clock
      ensures state.db.table.Some? && Later(old(state.db.table.value), state.db.table.value)
      ensures OneCall(old(state.db.table.value), ResultCall(token, ClaimMessage), state.db.table.value,
                      state.db.clock, state.db.horizon, change.applied)
      ensures change.applied ==>
        && change.job == Some(state.db.table.value.job)
        && old(state.db.table.value.job.messageAttempts) < change.job.value.messageAttempts
      ensures !change.applied ==>
        (change.reason == LimitReached <==> UsedUp(state.db.table.value.job, token, state.db.clock))
    {
      hide Inv, Step, Applies;
      ghost var t := state.db.table.value;
      Meanwhile(state.db);
      ghost var t1 := state.db.table.value;
      LaterStep(t, t1, ResultCall(token, ClaimMessage), state.db.clock, state.db.horizon);
      ClaimCounts(t1, token, state.db.clock, state.db.horizon);
      change := state.ClaimResultMessageAttempt(token);
    }

    method MarkSent(token: Token, final: Status) returns (recorded: bool)
      requires state.db.table.Some? && Inv(state.db.table.value)
      modifies state.db`table, state.db`clock
      ensures state.db.table.Some? && Later(old(state.db.table.value), state.db.table.value)
      ensures OneCall(old(state.db.table.value), ResultCall(token, MarkPublished(final)), state.db.table.value,
                      state.db.clock, state.db.horizon, recorded)
      ensures recorded ==> Settled(state.db.table.value.job)
    {
      hide Inv, Evolves, Step, Applies;
      ghost var t := state.db.table.value;
      Meanwhile(state.db);
      ghost var t1 := state.db.table.value;
      LaterStep(t, t1, ResultCall(token, MarkPublished(final)), state.db.clock, state.db.horizon);
      MarkSets(token, final, t1, state.db.clock, state.db.horizon);
      var marked := state.MarkResultPublished(token, final);
      recorded := marked.applied;
    }

    method GiveBack(token: Token) returns (released: bool)
      requires state.db.table.Some? && Inv(state.db.table.value)
      modifies state.db`table, state.db`clock
      ensures state.db.table.Some? && Later(old(state.db.table.value), state.db.table.value)
      ensures OneCall(old(state.db.table.value), LeaseCall(Release(token)), state.db.table.value,
                      state.db.clock, state.db.horizon, released)
      ensures !LeaseValid(state.db.table.value.job, token, state.db.clock)
    {
      ghost var t := state.db.table.value;
      Meanwhile(state.db);
      LaterStep(t, state.db.table.value, LeaseCall(Release(token)), state.db.clock, state.db.horizon);
      hide Inv, Evolves;
      var change := state.ReleaseLease(token);
      released := change.applied;
    }

    /** A call sends nothing, or one message: the stored result under a number claimed during the call. */
    ghost predicate Delivered(before: Table, sends: seq<Send>, after: Table, sends': seq<Send>, answer: SendOutcome) {
      || sends' == sends
      || exists s: Send :: sends' == sends + [s] && s.outcome == answer && after.job.payload == Some(s.payload)
           && before.job.messageAttempts < s.attempt <= after.job.messageAttempts
    }

    lemma NothingDelivered(before: Table, sends: seq<Send>, answer: SendOutcome)
      ensures forall after :: Delivered(before, sends, after, sends, answer)
    {}

    lemma DeliveredFrom(a: Table, b: Table, c: Table, sends: seq<Send>, sends': seq<Send>, answer: SendOutcome)
      requires Delivered(b, sends, c, sends', answer) && a.job.messageAttempts == b.job.messageAttempts
      ensures Delivered(a, sends, c, sends', answer)
    {}

    lemma DeliveredLater(a: Table, b: Table, c: Table, sends: seq<Send>, sends': seq<Send>, answer: SendOutcome)
      requires Delivered(a, sends, b, sends', answer) && Later(b, c)
      ensures Delivered(a, sends, c, sends', answer)
    {
      hide Inv;
    }

    /** Once claimed: send, record a success, or pause before the next attempt. */
    method SendClaimed(job: Job, attempt: nat, token: Token, answer: SendOutcome, configReason: bool)
      returns (outcome: PublishOutcome, release: bool, ghost steps: seq<Taken>)
      requires state.db.table.Some? && Inv(state.db.table.value)
      requires job.payload.Some? && state.db.table.value.job.payload == job.payload
      modifies state.db`table, state.db`clock, queue
      ensures state.db.table.Some? && Later(old(state.db.table.value), state.db.table.value)
      ensures queue.sends == old(queue.sends) + [Send(attempt, job.payload.value, answer)]
      ensures Chain(old(state.db.table.value), steps, state.db.horizon)
      ensures Last(old(state.db.table.value), steps) == state.db.table.value
      ensures steps != [] && steps[0].deed == SendMessage(Send(attempt, job.payload.value, answer))
      ensures AfterSend(steps[1..], token, Send(attempt, job.payload.value, answer), configReason, outcome, release)
      ensures outcome.SentAndRecorded? ==> Settled(state.db.table.value.job)
    {
      hide Inv, Evolves, OneCall, Chain;
      ghost var t := state.db.table.value;
      Meanwhile(state.db);
      var message := Send(attempt, job.payload.value, answer);
      queue.SendMessage(message);
      ghost var t1 := state.db.table.value;
      ghost var sent := Taken(SendMessage(message), t1, state.db.clock);
      steps := [];
      NothingChained(t, state.db.horizon);
      ChainMore(t, [], sent, state.db.horizon);
      steps := [] + [sent];
      if answer.SendSucceeded? {
        var final := StatusOf(job.payload.value);
        var recorded := MarkSent(token, final);
        LaterTransitive(t, t1, state.db.table.value);
        ghost var marked := Taken(Called(ResultCall(token, MarkPublished(final)), recorded), state.db.table.value,
                                  state.db.clock);
        ChainMore(t, steps, marked, state.db.horizon);
        steps := steps + [marked];
        if recorded { return SentAndRecorded, false, steps; }
      }
      ghost var t2, last := state.db.table.value, |steps|;
      ghost var c;
      if attempt >= RESULT_MESSAGE_LIMIT {
        var recorded := Exhaust(token);
        c := Called(ResultCall(token, MarkExhausted), recorded);
        outcome, release := GaveUp, true;
      } else {
        var wait := Backoff(attempt, configReason);
        var held := Hold(token, wait);
        c := Called(LeaseCall(Renew(token, wait)), held);
        outcome, release := RetryLater, !held;
      }
      ghost var ended := Taken(c, state.db.table.value, state.db.clock);
      ChainMore(t, steps, ended, state.db.horizon);
      steps := steps + [ended];
      LaterTransitive(t, t2, state.db.table.value);
    }

    lemma NothingChained(t: Table, horizon: Time)
      ensures Chain(t, [], horizon)
    {
      hide Follows;
    }

    lemma ChainOne(before: Table, s: Taken, horizon: Time)
      requires Follows(before, s, horizon)
      ensures Chain(before, [s], horizon) && Last(before, [s]) == s.row
    {
      hide Follows;
    }

    /** Claim the next attempt, and send and record under its number. */
    method Attempt(job: Job, token: Token, answer: SendOutcome, configReason: bool)
      returns (outcome: PublishOutcome, release: bool, ghost steps: seq<Taken>)
      requires state.db.table.Some? && Inv(state.db.table.value) && job == state.db.table.value.job
      requires job.payload.Some?
      modifies state.db`table, state.db`clock, queue
      ensures state.db.table.Some? && Later(old(state.db.table.value), state.db.table.value)
      ensures Chain(old(state.db.table.value), steps, state.db.horizon)
      ensures Last(old(state.db.table.value), steps) == state.db.table.value
      ensures ClaimedTurn(steps, token, job.payload.value, answer, configReason, outcome, release)
      ensures queue.sends == old(queue.sends) + Sends(steps)
      ensures Delivered(old(state.db.table.value), old(queue.sends), state.db.table.value, queue.sends, answer)
      ensures outcome.SentAndRecorded? ==> Settled(state.db.table.value.job)
    {
      hide Inv, Evolves, OneCall, Chain, AfterSend, Sends;
      ghost var t := state.db.table.value;
      var claim := ClaimAttempt(token);
      ghost var t1 := state.db.table.value;
      steps := Only(t, Called(ResultCall(token, ClaimMessage), claim.applied));
      if !claim.applied {
        if claim.reason != LimitReached { return Skipped, true, steps; }
        var recorded := Exhaust(token);
        ghost var ended := Only(t1, Called(ResultCall(token, MarkExhausted), recorded));
        ChainBoth(t, steps, ended, state.db.horizon);
        steps := steps + ended;
        NoSends(steps);
        LaterTransitive(t, t1, state.db.table.value);
        return GaveUp, true, steps;
      }
      PayloadStays(t, t1);
      ghost var rest;
      outcome, release, rest := SendClaimed(job, claim.job.value.messageAttempts, token, answer, configReason);
      ChainBoth(t, steps, rest, state.db.horizon);
      OneSend(steps, rest, token, configReason, outcome, release);
      steps := steps + rest;
      LaterTransitive(t, t1, state.db.table.value);
      PayloadStays(t1, state.db.table.value);
    }

    /** Check the granted row, send its result under a claimed number, and record what came of it. */
    method Deliver(job: Job, token: Token, configured: bool, answer: SendOutcome, configReason: bool)
      returns (outcome: PublishOutcome, release: bool, ghost steps: seq<Taken>)
      requires state.db.table.Some? && Inv(state.db.table.value) && job == state.db.table.value.job
      modifies state.db`table, state.db`clock, queue
      ensures state.db.table.Some? && Later(old(state.db.table.value), state.db.table.value)
      // in that order, whatever others do in between
      ensures Chain(old(state.db.table.value), steps, state.db.horizon)
      ensures Last(old(state.db.table.value), steps) == state.db.table.value
      ensures InTurn(steps, token, job, configured, answer, configReason, outcome, release)
      ensures queue.sends == old(queue.sends) + Sends(steps)
      ensures Delivered(old(state.db.table.value), old(queue.sends), state.db.table.value, queue.sends, answer)
      ensures outcome.SentAndRecorded? ==> Settled(state.db.table.value.job)
    {
      hide Inv, Evolves, OneCall, Chain, ClaimedTurn, Delivered, PayloadProblem;
      ghost var t := state.db.table.value;
      LaterReflexive(t);
      NothingChained(t, state.db.horizon);
      NothingDelivered(t, old(queue.sends), answer);
      steps := [];
      if job.payload.None? || job.messageStatus != Pending { return Skipped, true, steps; }
      StoredResultsAreSendable(t);
      if job.messageAttempts >= RESULT_MESSAGE_LIMIT {
        var recorded := Exhaust(token);
        steps := Only(t, Called(ResultCall(token, MarkExhausted), recorded));
        return GaveUp, true, steps;
      }
      if PayloadProblem(job).Some? || !configured {
        var held := Hold(token, CONFIG_BACKOFF);
        steps := Only(t, Called(LeaseCall(Renew(token, CONFIG_BACKOFF)), held));
        return HeldOff, !held, steps;
      }
      outcome, release, steps := Attempt(job, token, answer, configReason);
    }

    /** The one thing done since before, as a list. */
    ghost method Only(before: Table, deed: Deed) returns (steps: seq<Taken>)
      requires state.db.table.Some? && deed.Called?
      requires OneCall(before, deed.command, state.db.table.value, state.db.clock, state.db.horizon, deed.applied)
      ensures steps == [Taken(deed, state.db.table.value, state.db.clock)] && Sends(steps) == []
      ensures Chain(before, steps, state.db.horizon) && Last(before, steps) == state.db.table.value
    {
      hide OneCall;
      steps := [Taken(deed, state.db.table.value, state.db.clock)];
      ChainOne(before, steps[0], state.db.horizon);
      NoSends(steps);
    }

    lemma {:induction false} OneSend(claims: seq<Taken>, rest: seq<Taken>, token: Token, config: bool,
                                     outcome: PublishOutcome, release: bool)
      requires |claims| == 1 && claims[0].deed.Called? && rest != [] && rest[0].deed.SendMessage?
      requires AfterSend(rest[1..], token, rest[0].deed.message, config, outcome, release)
      ensures Sends(claims + rest) == [rest[0].deed.message] && (claims + rest)[2..] == rest[1..]
    {
      SendsOfBoth(claims + [rest[0]], rest[1..]);
      assert claims + rest == claims + [rest[0]] + rest[1..];
      NoSends(rest[1..]);
      SendsOfBoth(claims, [rest[0]]);
      NoSends(claims);
      assert Sends([rest[0]]) == [rest[0].deed.message];
    }

    lemma {:induction false} SendsOfBoth(a: seq<Taken>, b: seq<Taken>)
      ensures Sends(a + b) == Sends(a) + Sends(b)
    {
      if b == [] {
        assert a + b == a;
      } else {
        var n := |b| - 1;
        SendsOfBoth(a, b[..n]);
        assert (a + b)[..|a + b| - 1] == a + b[..n];
      }
    }

    lemma PayloadStays(t: Table, t': Table)
      requires Later(t, t') && t.job.payload.Some?
      ensures t'.job.payload == t.job.payload && t.job.messageAttempts <= t'.job.messageAttempts
    {
      hide Inv;
    }

    /** The lease, exactly if the row waits for publication and is free; the row then says what there is to send. */
    method TakeLease(token: Token, lease: int) returns (job: Option<Job>)
      requires state.db.table.Some? && Inv(state.db.table.value)
      modifies state.db`table
      ensures state.db.table.Some? && Later(old(state.db.table.value), state.db.table.value)
      ensures job.Some? <==> Grantable(old(state.db.table.value.job), state.db.clock, lease)
      ensures job.None? ==> state.db.table == old(state.db.table)
      ensures job.Some? ==>
        && job.value == state.db.table.value.job && state.db.table.value.attempts == old(state.db.table.value.attempts)
        && job.value == old(state.db.table.value.job).(lease := Some(Lease(token, state.db.clock + lease)),
                                                      updatedAt := state.db.clock)
    {
      hide Inv, Evolves, Step, Applies;
      ghost var t0 := state.db.table.value;
      LaterReflexive(t0);
      LaterStep(t0, t0, LeaseCall(Acquire(token, PublishResult, lease)), state.db.clock, state.db.horizon);
      GrantSets(token, lease, t0, state.db.clock, state.db.horizon);
      var grant := state.AcquireLease(token, PublishResult, lease);
      job := if grant.applied then grant.job else None;
    }

    /**
     * token is fresh; configured and configReason say what the queue client knows about its URL and about a failure;
     * answer is what the queue will answer. The row may change between any two calls. grant is the row as the lease
     * was granted on it, and steps what was done from there on.
     */
    method Publish(token: Token, lease: int, configured: bool, answer: SendOutcome, configReason: bool)
      returns (outcome: PublishOutcome, ghost grant: Option<Table>, ghost steps: seq<Taken>, ghost release: bool)
      requires state.db.table.Some? && Inv(state.db.table.value)
      requires var l := state.db.table.value.job.lease; l.Some? ==> l.value.token != token
      modifies state.db`table, state.db`clock, queue
      ensures state.db.table.Some? && Later(old(state.db.table.value), state.db.table.value)
      // a row that waits and is free is always taken, and no other row is touched
      ensures grant.Some? <==> Grantable(old(state.db.table.value.job), old(state.db.clock), lease)
      ensures grant.None? ==>
        outcome.Skipped? && steps == [] && !release && state.db.table == old(state.db.table)
      ensures grant.Some? ==>
        && grant.value == Table(old(state.db.table.value.job).(lease := Some(Lease(token, old(state.db.clock) + lease)),
                                                              updatedAt := old(state.db.clock)),
                                old(state.db.table.value.attempts))
        // what follows are the checks, the claim, the send and the record, in that order
        && Chain(grant.value, steps, state.db.horizon)
        && InTurn(steps, token, grant.value.job, configured, answer, configReason, outcome, release)
        && if release then exists released :: OneCall(Last(grant.value, steps), LeaseCall(Release(token)),
                                                     state.db.table.value, state.db.clock, state.db.horizon, released)
           else state.db.table.value == Last(grant.value, steps)
      ensures queue.sends == old(queue.sends) + Sends(steps)
      ensures Delivered(old(state.db.table.value), old(queue.sends), state.db.table.value, queue.sends, answer)
      ensures outcome.SentAndRecorded? ==>
        queue.sends != old(queue.sends) && answer.SendSucceeded? && Settled(state.db.table.value.job)
      ensures outcome.Skipped? || outcome.HeldOff? ==> queue.sends == old(queue.sends)
      ensures outcome.RetryLater? ==> queue.sends != old(queue.sends)
      ensures outcome.HeldOff? ==> !configured  // a reachable row is never held for its form
      // a lease that is not kept on purpose is given back
      ensures outcome.Skipped? || outcome.GaveUp? ==> !LeaseValid(state.db.table.value.job, token, state.db.clock)
    {
      hide Inv, Evolves, Chain, Last, InTurn, Sends, OneCall, Delivered;
      ghost var t0, first := state.db.table.value, queue.sends;
      NothingDelivered(t0, first, answer);
      NoSends([]);
      grant, steps, release := None, [], false;
      var job := TakeLease(token, lease);
      if job.None? { return Skipped, grant, steps, release; }
      ghost var t1 := state.db.table.value;
      grant := Some(t1);
      var giveBack;
      outcome, giveBack, steps := Deliver(job.value, token, configured, answer, configReason);
      release := giveBack;
      SentWhen(steps, token, t1.job, configured, answer, configReason, outcome, release);
      ghost var t2, sent := state.db.table.value, queue.sends;
      LaterTransitive(t0, t1, t2);
      DeliveredFrom(t0, t1, t2, first, sent, answer);
      if giveBack {
        var released := GiveBack(token);
        LaterTransitive(t0, t2, state.db.table.value);
        DeliveredLater(t0, t2, state.db.table.value, first, sent, answer);
      }
    }

    /** What the order of a delivery says about whether a message left. */
    lemma SentWhen(steps: seq<Taken>, token: Token, job: Job, configured: bool, answer: SendOutcome, config: bool,
                   outcome: PublishOutcome, release: bool)
      requires InTurn(steps, token, job, configured, answer, config, outcome, release)
      ensures |Sends(steps)| <= 1
      ensures outcome.SentAndRecorded? ==> answer.SendSucceeded? && !release
      ensures outcome.SentAndRecorded? || outcome.RetryLater? ==> Sends(steps) != []
      ensures outcome.Skipped? || outcome.HeldOff? ==> Sends(steps) == []
      ensures outcome.Skipped? || outcome.GaveUp? ==> release
      ensures outcome.HeldOff? ==> !configured
    {
      if |steps| >= 2 && steps[1].deed.SendMessage? {
        assert steps == steps[..1] + steps[1..] && steps[1..][1..] == steps[2..];
        OneSend(steps[..1], steps[1..], token, config, outcome, release);
      } else {
        NoSends(steps);
      }
    }
  }
}
