/**
 Runs of the result publisher: any number of publisher loops race for one job's result, may crash or lose the lease
 between any two steps, and learn of each send only SUCCEEDED, FAILED or UNKNOWN.
 */
module PublishRuns {
  import opened Basics
  import opened Jobs
  import opened Transitions
  import opened RowInvariant
  import LeaseRuns

  type PublisherId = nat

  datatype SendOutcome = SendSucceeded | SendFailed | SendUnknown

  /** job: the row as the lease grant returned it; attempt: the number its claim got. */
  datatype Publisher =
    | Idle
    | Granted(token: Token, job: Job)
    | Claimed(token: Token, job: Job, attempt: nat)
    | Sent(token: Token, job: Job, attempt: nat, outcome: SendOutcome)

  datatype Send = Send(attempt: nat, payload: Payload, outcome: SendOutcome)

  /** tokens: the lease tokens drawn so far; each is drawn once. */
  datatype World = World(table: Table, now: Time, publishers: map<PublisherId, Publisher>, sends: seq<Send>,
                         tokens: set<Token>)

  datatype Action =
    | Tick(now: Time)
    | Others(c: Command)
    | Grab(i: PublisherId, token: Token, duration: int)
    | Claim(i: PublisherId)
    | SendResult(i: PublisherId, outcome: SendOutcome)
    | Mark(i: PublisherId)
    | Exhaust(i: PublisherId)
    | Stop(i: PublisherId)

  function Of(w: World, i: PublisherId): Publisher { if i in w.publishers then w.publishers[i] else Idle }

  function Put(w: World, i: PublisherId, p: Publisher): World { w.(publishers := w.publishers[i := p]) }

  function Apply(w: World, c: Command, horizon: Time): World { w.(table := Step(c, w.table, w.now, horizon)) }

  function Drawn(c: Command): set<Token> { if c.LeaseCall? && c.lease.Acquire? then {c.lease.token} else {} }

  /** Only publishers claim, mark and exhaust; every other method may run at any time, lease calls included. */
  predicate AllowedToOthers(w: World, c: Command) {
    Honest(c, w.table) && !(c.ResultCall? && !c.result.Save?) && Drawn(c) !! w.tokens
  }

  datatype Problem = InvalidPayload | JobIdMismatch | ImageKeyMismatch | ImageKeyOnFailure

  /** What can be wrong with a stored result before it is sent. */
  function PayloadProblem(j: Job): Option<Problem>
    requires j.payload.Some?
  {
    var p := j.payload.value;
    if !WellFormed(p) then Some(InvalidPayload)
    else if p.jobId != j.id then Some(JobIdMismatch)
    else if p.CompletedResult? && j.resultImageKey != Some(p.imageKey) then Some(ImageKeyMismatch)
    else if p.FailedResult? && j.resultImageKey.Some? then Some(ImageKeyOnFailure)
    else None
  }

  /** The checks between the grant and the claim, all on the granted row. */
  predicate Sendable(j: Job) {
    && j.payload.Some? && j.messageStatus == Pending && j.messageAttempts < RESULT_MESSAGE_LIMIT
    && PayloadProblem(j).None?
  }

  predicate Enabled(w: World, a: Action, horizon: Time) {
    match a
    case Tick(now) => w.now <= now
    case Others(c) => AllowedToOthers(w, c)
    case Grab(i, token, duration) =>
      && Of(w, i).Idle? && token !in w.tokens
      && Applies(LeaseCall(Acquire(token, PublishResult, duration)), w.table, w.now, horizon)
    case Claim(i) => Of(w, i).Granted? && Sendable(Of(w, i).job)
    case SendResult(i, _) => Of(w, i).Claimed? && Of(w, i).job.payload.Some?
    case Mark(i) => Of(w, i).Sent? && Of(w, i).outcome.SendSucceeded? && Of(w, i).job.payload.Some?
    case Exhaust(i) => !Of(w, i).Idle? && !Of(w, i).Claimed?
    case Stop(i) => true
  }

  function Do(w: World, a: Action, horizon: Time): World
    requires Enabled(w, a, horizon)
  {
    match a
    case Tick(now) => w.(now := now)
    case Others(c) => Apply(w, c, horizon).(tokens := w.tokens + Drawn(c))
    case Grab(i, token, duration) =>
      var w' := Apply(w, LeaseCall(Acquire(token, PublishResult, duration)), horizon);
      Put(w', i, Granted(token, w'.table.job)).(tokens := w.tokens + {token})
    case Claim(i) =>
      var p := Of(w, i);
      var c := ResultCall(p.token, ClaimMessage);
      var w' := Apply(w, c, horizon);
      Put(w', i, if Applies(c, w.table, w.now, horizon) then Claimed(p.token, p.job, w'.table.job.messageAttempts)
                 else p)
    case SendResult(i, outcome) =>
      var p := Of(w, i);
      Put(w, i, Sent(p.token, p.job, p.attempt, outcome))
        .(sends := w.sends + [Send(p.attempt, p.job.payload.value, outcome)])
    case Mark(i) =>
      var p := Of(w, i);
      Apply(w, ResultCall(p.token, MarkPublished(StatusOf(p.job.payload.value))), horizon)
    case Exhaust(i) => Apply(w, ResultCall(Of(w, i).token, MarkExhausted), horizon)
    case Stop(i) => Put(w, i, Idle)
  }

  /** The run of a schedule from w; an action that is not enabled where it stands does nothing. */
  function Run(w: World, schedule: seq<Action>, horizon: Time): World {
    if schedule == [] then w
    else
      var last := schedule[|schedule| - 1];
      var before := Run(w, schedule[..|schedule| - 1], horizon);
      if Enabled(before, last, horizon) then Do(before, last, horizon) else before
  }

  // ----- the invariant -----

  /** No publisher is at work on the job yet and nothing has been claimed. */
  predicate Fresh(w: World) {
    Inv(w.table) && w.table.job.messageAttempts == 0 && w.publishers == map[] && w.sends == []
  }

  /** What a publisher carries with it was read from the row. */
  predicate Carries(w: World, p: Publisher) {
    && (!p.Idle? && p.job.payload.Some? ==> w.table.job.payload == p.job.payload)
    && (p.Claimed? || p.Sent? ==>
          p.job.payload.Some? && 1 <= p.attempt <= w.table.job.messageAttempts)
    && (!p.Idle? ==> p.token in w.tokens)
  }

  ghost predicate Good(w: World) {
    && Inv(w.table)
    && (forall i: nat :: Carries(w, Of(w, i)))
    && (forall k :: 0 <= k < |w.sends| ==> w.table.job.payload == Some(w.sends[k].payload))
    && (forall k :: 0 <= k < |w.sends| ==> 1 <= w.sends[k].attempt <= w.table.job.messageAttempts)
    && (forall k, m :: 0 <= k < m < |w.sends| ==> w.sends[k].attempt != w.sends[m].attempt)
    && (forall i: nat, k :: 0 <= k < |w.sends| && Of(w, i).Claimed? ==> Of(w, i).attempt != w.sends[k].attempt)
    && (forall i: nat, k: nat :: i != k && Of(w, i).Claimed? && Of(w, k).Claimed? ==>
          Of(w, i).attempt != Of(w, k).attempt)
    && (forall i: nat :: Of(w, i).Sent? ==>
          Send(Of(w, i).attempt, Of(w, i).job.payload.value, Of(w, i).outcome) in w.sends)
    && (w.table.job.messageStatus == Published ==> exists s <- w.sends :: s.outcome.SendSucceeded?)
  }

  // ----- what one step does to the message -----

  lemma OthersKeepMessage(c: Command, t: Table, now: Time, horizon: Time)
    requires !(c.ResultCall? && !c.result.Save?)
    ensures var j' := Step(c, t, now, horizon).job;
            j'.messageStatus == t.job.messageStatus && j'.messageAttempts == t.job.messageAttempts
  {
    hide RowStep, AttemptStep;
    match c
    case AttemptCall(a) => AttemptKeepsMessage(a, t, now, horizon);
    case _ => RowKeepsMessage(c, t.job, now);
  }

  lemma AttemptKeepsMessage(c: AttemptCommand, t: Table, now: Time, horizon: Time)
    ensures var j' := AttemptStep(c, t, now, horizon).job;
            j'.messageStatus == t.job.messageStatus && j'.messageAttempts == t.job.messageAttempts
  {}

  lemma RowKeepsMessage(c: Command, j: Job, now: Time)
    requires !c.AttemptCall? && !(c.ResultCall? && !c.result.Save?)
    ensures var j' := RowStep(c, j, now);
            j'.messageStatus == j.messageStatus && j'.messageAttempts == j.messageAttempts
  {}

  /** A change of the row that keeps the count and the payload keeps everything the publishers rely on. */
  lemma RowChange(w: World, t': Table)
    requires Good(w) && Inv(t') && Evolves(w.table.job, t'.job)
    requires t'.job.messageStatus == Published ==>
               w.table.job.messageStatus == Published || exists s <- w.sends :: s.outcome.SendSucceeded?
    ensures Good(w.(table := t'))
  {
    hide Inv;
    var w' := w.(table := t');
    assert forall i: nat :: Of(w', i) == Of(w, i);
  }

  /** A publisher that carries nothing new, or what it has just read from the row, fits in. */
  lemma MoveKeeps(w: World, i: PublisherId, p: Publisher)
    requires Good(w) && (p.Idle? || (p.Granted? && p.job == w.table.job && p.token in w.tokens))
    ensures Good(Put(w, i, p))
  {
    hide Inv;
    var w' := Put(w, i, p);
    assert Of(w', i) == p;
    assert forall k: nat :: k != i ==> Of(w', k) == Of(w, k);
  }

  lemma SendKeeps(w: World, i: PublisherId, outcome: SendOutcome, horizon: Time)
    requires Good(w) && Enabled(w, SendResult(i, outcome), horizon)
    ensures Good(Do(w, SendResult(i, outcome), horizon))
  {
    hide Inv, Step, Applies, PayloadProblem, AllowedToOthers, StatusOf;
    var w' := Do(w, SendResult(i, outcome), horizon);
    var n := |w.sends|;
    assert Carries(w, Of(w, i));
    assert forall k: nat :: k != i ==> Of(w', k) == Of(w, k);
    assert w'.sends[n] == Send(Of(w, i).attempt, Of(w, i).job.payload.value, outcome);
    assert forall k :: 0 <= k < n ==> w'.sends[k] == w.sends[k];
    assert forall s :: s in w.sends ==> s in w'.sends;
  }

  /** A claim raises the count by one and changes nothing else a publisher relies on. */
  lemma ClaimCounts(t: Table, token: Token, now: Time, horizon: Time)
    ensures var c := ResultCall(token, ClaimMessage);
            Step(c, t, now, horizon) ==
              if Applies(c, t, now, horizon)
              then Table(t.job.(messageAttempts := t.job.messageAttempts + 1, updatedAt := now), t.attempts) else t
  {}

  lemma HonestClaim(c: Command, t: Table)
    requires c.ResultCall? && !c.result.Save?
    ensures Honest(c, t)
  {}

  lemma ClaimKeeps(w: World, i: PublisherId, horizon: Time)
    requires Good(w) && Enabled(w, Claim(i), horizon)
    ensures Good(Do(w, Claim(i), horizon))
  {
    hide Inv, Step, Applies, PayloadProblem, Honest, Evolves;
    var p := Of(w, i);
    var c := ResultCall(p.token, ClaimMessage);
    assert Honest(c, w.table) by { HonestClaim(c, w.table); }
    StepKeepsInvariant(c, w.table, w.now, horizon);
    ClaimCounts(w.table, p.token, w.now, horizon);
    var w' := Do(w, Claim(i), horizon);
    assert forall k: nat :: k != i ==> Of(w', k) == Of(w, k);
  }

  lemma MarkKeeps(w: World, i: PublisherId, horizon: Time)
    requires Good(w) && Enabled(w, Mark(i), horizon)
    ensures Good(Do(w, Mark(i), horizon))
  {
    var c := ResultCall(Of(w, i).token, MarkPublished(StatusOf(Of(w, i).job.payload.value)));
    StepKeepsInvariant(c, w.table, w.now, horizon);
    assert Send(Of(w, i).attempt, Of(w, i).job.payload.value, Of(w, i).outcome) in w.sends;
    RowChange(w, Step(c, w.table, w.now, horizon));
  }

  lemma ExhaustKeeps(w: World, i: PublisherId, horizon: Time)
    requires Good(w) && Enabled(w, Exhaust(i), horizon)
    ensures Good(Do(w, Exhaust(i), horizon))
  {
    var c := ResultCall(Of(w, i).token, MarkExhausted);
    StepKeepsInvariant(c, w.table, w.now, horizon);
    RowChange(w, Step(c, w.table, w.now, horizon));
  }

  lemma MoreTokens(w: World, more: set<Token>)
    requires Good(w)
    ensures Good(w.(tokens := w.tokens + more))
  {
    hide Inv;
    var w' := w.(tokens := w.tokens + more);
    assert forall i: nat :: Of(w', i) == Of(w, i);
  }

  lemma OthersKeep(w: World, c: Command, horizon: Time)
    requires Good(w) && AllowedToOthers(w, c)
    ensures Good(Apply(w, c, horizon).(tokens := w.tokens + Drawn(c)))
  {
    hide Step;
    StepKeepsInvariant(c, w.table, w.now, horizon);
    OthersKeepMessage(c, w.table, w.now, horizon);
    RowChange(w, Step(c, w.table, w.now, horizon));
    MoreTokens(Apply(w, c, horizon), Drawn(c));
  }

  lemma GrabKeeps(w: World, i: PublisherId, token: Token, duration: int, horizon: Time)
    requires Good(w) && Enabled(w, Grab(i, token, duration), horizon)
    ensures Good(Do(w, Grab(i, token, duration), horizon))
  {
    var c := LeaseCall(Acquire(token, PublishResult, duration));
    OthersKeep(w, c, horizon);
    var w' := Apply(w, c, horizon).(tokens := w.tokens + {token});
    MoveKeeps(w', i, Granted(token, w'.table.job));
  }

  lemma DoKeeps(w: World, a: Action, horizon: Time)
    requires Good(w) && Enabled(w, a, horizon)
    ensures Good(Do(w, a, horizon))
  {
    hide Step, Applies, Honest, Inv;
    match a
    case Tick(now) => assert forall i: nat :: Of(w.(now := now), i) == Of(w, i);
    case Others(c) => OthersKeep(w, c, horizon);
    case Grab(i, token, duration) => GrabKeeps(w, i, token, duration, horizon);
    case Claim(i) => ClaimKeeps(w, i, horizon);
    case SendResult(i, outcome) => SendKeeps(w, i, outcome, horizon);
    case Mark(i) => MarkKeeps(w, i, horizon);
    case Exhaust(i) => ExhaustKeeps(w, i, horizon);
    case Stop(i) => MoveKeeps(w, i, Idle);
  }

  lemma {:induction false} RunKeeps(w: World, schedule: seq<Action>, horizon: Time)
    requires Good(w)
    ensures Good(Run(w, schedule, horizon))
  {
    hide Good, Enabled, Do;
    if schedule != [] {
      var n := |schedule| - 1;
      RunKeeps(w, schedule[..n], horizon);
      var before := Run(w, schedule[..n], horizon);
      if Enabled(before, schedule[n], horizon) { DoKeeps(before, schedule[n], horizon); }
    }
  }

  lemma FreshIsGood(w: World)
    requires Fresh(w)
    ensures Good(w)
  {}

  // ----- the promises -----

  /** In every run the result is sent at most three times, always the stored payload, under distinct claimed numbers. */
  lemma AtMostThreeSends(w: World, schedule: seq<Action>, horizon: Time)
    requires Fresh(w)
    ensures var w' := Run(w, schedule, horizon);
            && |w'.sends| <= w'.table.job.messageAttempts <= RESULT_MESSAGE_LIMIT
            && forall s <- w'.sends :: w'.table.job.payload == Some(s.payload)
  {
    FreshIsGood(w);
    RunKeeps(w, schedule, horizon);
    var w' := Run(w, schedule, horizon);
    var numbers := seq(|w'.sends|, k requires 0 <= k < |w'.sends| => w'.sends[k].attempt);
    assert forall k :: 0 <= k < |numbers| ==> numbers[k] == w'.sends[k].attempt;
    DistinctBounded(numbers, w'.table.job.messageAttempts);
  }

  /** PUBLISHED is recorded only after a send that succeeded, and fixes the status the payload names. */
  lemma PublishedMeansSent(w: World, schedule: seq<Action>, horizon: Time)
    requires Fresh(w)
    ensures var w' := Run(w, schedule, horizon);
            var j := w'.table.job;
            && (j.messageStatus == Published ==> exists s <- w'.sends :: s.outcome.SendSucceeded?)
            && (Terminal(j) <==> j.messageStatus == Published)
            && (Terminal(j) ==> j.payload.Some? && j.status == StatusOf(j.payload.value))
            && (j.messageStatus == RetryExhausted ==> j.messageAttempts == RESULT_MESSAGE_LIMIT)
  {
    FreshIsGood(w);
    RunKeeps(w, schedule, horizon);
  }

  /** No stored result is ever held back for its form: the check before the claim finds nothing on a reachable row. */
  lemma StoredResultsAreSendable(t: Table)
    requires Inv(t) && t.job.payload.Some?
    ensures PayloadProblem(t.job).None?
  {}

  /** The query for results that are due: rows a publisher would be granted right now and could still send. */
  predicate PublishDue(j: Job, now: Time) {
    && j.nextAction == Some(PublishResult) && j.payload.Some? && j.messageStatus == Pending && !Terminal(j)
    && LeaseFree(j, now)
  }

  /** A due row is granted, and what its publisher goes on to do is send it, or record that its attempts are used up. */
  lemma DueIsGranted(t: Table, token: Token, duration: int, now: Time, horizon: Time)
    requires Inv(t) && 0 < duration <= MAX_LEASE
    ensures PublishDue(t.job, now) <==>
              Applies(LeaseCall(Acquire(token, PublishResult, duration)), t, now, horizon)
              && t.job.messageStatus != RetryExhausted
    ensures PublishDue(t.job, now) ==> (Sendable(t.job) <==> t.job.messageAttempts < RESULT_MESSAGE_LIMIT)
  {
    hide OneImageSource, Bounded, Progress;
  }

  // ----- after the decision -----

  /** Neither published nor exhausted is ever taken back, and neither lets anyone claim again. */
  lemma NoClaimAfterDecision(w: World, a: Action, horizon: Time)
    requires Good(w) && Enabled(w, a, horizon) && w.table.job.messageStatus != Pending
    ensures var w' := Do(w, a, horizon);
            && w'.table.job.messageStatus == w.table.job.messageStatus
            && (forall i: nat :: Of(w', i).Claimed? ==> Of(w', i) == Of(w, i))
            && (w'.sends == w.sends
                || exists i: nat, s: Send ::
                     Of(w, i).Claimed? && s.attempt == Of(w, i).attempt && w'.sends == w.sends + [s])
  {
    hide Inv, Evolves, Step;
    var w' := Do(w, a, horizon);
    match a
    case Others(c) => OthersKeepMessage(c, w.table, w.now, horizon);
    case Grab(i, token, duration) =>
      OthersKeepMessage(LeaseCall(Acquire(token, PublishResult, duration)), w.table, w.now, horizon);
    case Claim(i) => ClaimCounts(w.table, Of(w, i).token, w.now, horizon);
    case SendResult(i, outcome) =>
      var s := Send(Of(w, i).attempt, Of(w, i).job.payload.value, outcome);
      assert w'.sends == w.sends + [s];
    case Mark(i) =>
      var final := StatusOf(Of(w, i).job.payload.value);
      DecidedStays(ResultCall(Of(w, i).token, MarkPublished(final)), w.table, w.now, horizon);
    case Exhaust(i) => DecidedStays(ResultCall(Of(w, i).token, MarkExhausted), w.table, w.now, horizon);
    case _ =>
  }

  lemma DecidedStays(c: Command, t: Table, now: Time, horizon: Time)
    requires c.ResultCall? && !c.result.Save? && t.job.messageStatus != Pending
    ensures Step(c, t, now, horizon) == t
  {}

  /** After the decision a send can only come from a publisher that claimed its number before. */
  lemma {:induction false} LateSends(w: World, schedule: seq<Action>, horizon: Time)
    requires Good(w) && w.table.job.messageStatus != Pending
    ensures var w' := Run(w, schedule, horizon);
            && w'.table.job.messageStatus == w.table.job.messageStatus
            && (forall i: nat :: Of(w', i).Claimed? ==> Of(w', i) == Of(w, i))
            && w.sends <= w'.sends
            && forall k :: |w.sends| <= k < |w'.sends| ==> ClaimedBefore(w, w'.sends[k].attempt)
  {
    hide Good, Enabled, Do;
    if schedule != [] {
      var n := |schedule| - 1;
      LateSends(w, schedule[..n], horizon);
      RunKeeps(w, schedule[..n], horizon);
      var before := Run(w, schedule[..n], horizon);
      if Enabled(before, schedule[n], horizon) { NoClaimAfterDecision(before, schedule[n], horizon); }
    }
  }

  ghost predicate ClaimedBefore(w: World, attempt: nat) {
    exists i: nat :: Of(w, i).Claimed? && Of(w, i).attempt == attempt
  }

  /** Some continuation of w sends again. */
  ghost predicate MaySendAgain(w: World, horizon: Time) {
    exists schedule :: |Run(w, schedule, horizon).sends| > |w.sends|
  }

  /** Once published or given up, the message can still be sent exactly if a publisher stands between claim and send. */
  lemma SendAgainExactly(w: World, horizon: Time)
    requires Good(w) && w.table.job.messageStatus != Pending
    ensures MaySendAgain(w, horizon) <==> exists i: nat :: Of(w, i).Claimed?
  {
    hide Run, Good, Enabled, Do;
    if MaySendAgain(w, horizon) {
      var schedule :| |Run(w, schedule, horizon).sends| > |w.sends|;
      LateSends(w, schedule, horizon);
      assert ClaimedBefore(w, Run(w, schedule, horizon).sends[|w.sends|].attempt);
    }
    if i: nat :| Of(w, i).Claimed? { ClaimedMaySend(w, i, horizon); }
  }

  lemma ClaimedMaySend(w: World, i: PublisherId, horizon: Time)
    requires Good(w) && Of(w, i).Claimed?
    ensures MaySendAgain(w, horizon)
  {
    var again := SendResult(i, SendUnknown);
    assert Carries(w, Of(w, i));
    hide Good, Inv, Step, Carries;
    Then(w, [], again, horizon);
    assert Run(w, [], horizon) == w;
    assert |Run(w, [] + [again], horizon).sends| > |w.sends|;
  }

  lemma Then(w: World, schedule: seq<Action>, a: Action, horizon: Time)
    ensures Run(w, schedule + [a], horizon) ==
              var before := Run(w, schedule, horizon);
              if Enabled(before, a, horizon) then Do(before, a, horizon) else before
  {
    assert (schedule + [a])[..|schedule|] == schedule;
  }

  lemma {:induction false} RunAppend(w: World, a: seq<Action>, b: seq<Action>, horizon: Time)
    ensures Run(w, a + b, horizon) == Run(Run(w, a, horizon), b, horizon)
  {
    hide Enabled, Do;
    if b == [] {
      assert a + b == a;
    } else {
      var n := |b| - 1;
      RunAppend(w, a, b[..n], horizon);
      assert (a + b)[..|a| + n] == a + b[..n];
      assert (a + b)[|a| + n] == b[n];
    }
  }

  // ----- sends made in time -----

  /** After the decision no publisher that has claimed holds the lease: recording it gave the lease up. */
  ghost predicate NoneLeased(w: World) {
    w.table.job.messageStatus != Pending ==>
      forall i: nat :: Of(w, i).Claimed? && w.table.job.lease.Some? ==> w.table.job.lease.value.token != Of(w, i).token
  }

  lemma DecisionGivesUp(c: Command, t: Table, now: Time, horizon: Time)
    requires c.ResultCall? && !c.result.Save?
    ensures var j' := Step(c, t, now, horizon).job;
            || (j'.messageStatus == t.job.messageStatus && j'.lease == t.job.lease)
            || j'.lease.None?
  {}

  /** Others take the lease under tokens of their own, and otherwise leave it with its holder or free it. */
  lemma OthersLease(c: Command, t: Table, now: Time, horizon: Time)
    ensures var lease := Step(c, t, now, horizon).job.lease;
            lease.Some? ==>
              lease.value.token in Drawn(c) || (t.job.lease.Some? && lease.value.token == t.job.lease.value.token)
  {
    if c.LeaseCall? && c.lease.Acquire? {
      LeaseRuns.GrantMove(c, t, now, horizon);
    } else {
      LeaseRuns.CallMoves(c, t, now, horizon);
    }
  }

  lemma NoneLeasedKeeps(w: World, a: Action, horizon: Time)
    requires Good(w) && Enabled(w, a, horizon) && NoneLeased(w)
    ensures NoneLeased(Do(w, a, horizon))
  {
    hide Inv, Evolves, Step, Applies, Honest, PayloadProblem;
    var w' := Do(w, a, horizon);
    assert forall i: nat :: Carries(w, Of(w, i));
    match a
    case Tick(now) => assert forall i: nat :: Of(w', i) == Of(w, i);
    case Others(c) =>
      assert forall i: nat :: Of(w', i) == Of(w, i);
      OthersKeepMessage(c, w.table, w.now, horizon);
      OthersLease(c, w.table, w.now, horizon);
    case Grab(i, token, duration) =>
      assert forall k: nat :: k != i ==> Of(w', k) == Of(w, k);
      OthersKeepMessage(LeaseCall(Acquire(token, PublishResult, duration)), w.table, w.now, horizon);
      OthersLease(LeaseCall(Acquire(token, PublishResult, duration)), w.table, w.now, horizon);
    case Claim(i) =>
      assert forall k: nat :: k != i ==> Of(w', k) == Of(w, k);
      ClaimCounts(w.table, Of(w, i).token, w.now, horizon);
      if w.table.job.messageStatus != Pending { NoClaimAfterDecision(w, a, horizon); }
    case Mark(i) =>
      assert forall k: nat :: Of(w', k) == Of(w, k);
      DecisionGivesUp(ResultCall(Of(w, i).token, MarkPublished(StatusOf(Of(w, i).job.payload.value))), w.table, w.now,
                      horizon);
    case Exhaust(i) =>
      assert forall k: nat :: Of(w', k) == Of(w, k);
      DecisionGivesUp(ResultCall(Of(w, i).token, MarkExhausted), w.table, w.now, horizon);
    case SendResult(i, _) => assert forall k: nat :: k != i ==> Of(w', k) == Of(w, k);
    case Stop(i) => assert forall k: nat :: k != i ==> Of(w', k) == Of(w, k);
  }

  /** Every send of the schedule is made while its publisher's lease is valid. */
  ghost predicate Punctual(w: World, schedule: seq<Action>, horizon: Time)
    decreases |schedule|
  {
    schedule == [] ||
    var n := |schedule| - 1;
    && Punctual(w, schedule[..n], horizon)
    && (schedule[n].SendResult? ==>
          var before := Run(w, schedule[..n], horizon);
          var p := Of(before, schedule[n].i);
          p.Claimed? ==> LeaseValid(before.table.job, p.token, before.now))
  }

  lemma {:induction false} RunNoneLeased(w: World, schedule: seq<Action>, horizon: Time)
    requires Good(w) && NoneLeased(w)
    ensures NoneLeased(Run(w, schedule, horizon))
    decreases |schedule|
  {
    hide Good, Enabled, Do, NoneLeased;
    if schedule != [] {
      var n := |schedule| - 1;
      RunNoneLeased(w, schedule[..n], horizon);
      RunKeeps(w, schedule[..n], horizon);
      var before := Run(w, schedule[..n], horizon);
      if Enabled(before, schedule[n], horizon) { NoneLeasedKeeps(before, schedule[n], horizon); }
    }
  }

  /** Publishers that send only while their lease is valid send nothing once the result is published or given up. */
  lemma PunctualSendsStop(w: World, first: seq<Action>, rest: seq<Action>, horizon: Time)
    requires Fresh(w) && Run(w, first, horizon).table.job.messageStatus != Pending
    requires Punctual(Run(w, first, horizon), rest, horizon)
    ensures Run(Run(w, first, horizon), rest, horizon).sends == Run(w, first, horizon).sends
  {
    hide Run, Good;
    FreshIsGood(w);
    RunKeeps(w, first, horizon);
    RunNoneLeased(w, first, horizon);
    NothingPunctual(Run(w, first, horizon), rest, horizon);
  }

  lemma {:induction false} NothingPunctual(w: World, schedule: seq<Action>, horizon: Time)
    requires Good(w) && NoneLeased(w) && w.table.job.messageStatus != Pending && Punctual(w, schedule, horizon)
    ensures Run(w, schedule, horizon).sends == w.sends
    decreases |schedule|
  {
    hide Good, Enabled, Do;
    if schedule != [] {
      var n := |schedule| - 1;
      NothingPunctual(w, schedule[..n], horizon);
      RunNoneLeased(w, schedule[..n], horizon);
      LateSends(w, schedule[..n], horizon);
      SendsOnlyBySending(Run(w, schedule[..n], horizon), schedule[n], horizon);
    }
  }

  lemma SendsOnlyBySending(w: World, a: Action, horizon: Time)
    ensures Enabled(w, a, horizon) && Do(w, a, horizon).sends != w.sends ==> a.SendResult? && Of(w, a.i).Claimed?
  {
    hide Step, Applies;
  }

  /** The message waits for a publisher, n attempts claimed. */
  predicate Waiting(w: World, n: nat) {
    && PublishPending(w.table.job) && LeaseFree(w.table.job, w.now) && w.table.job.messageAttempts == n
    && PayloadProblem(w.table.job).None?
  }

  /** A publisher that claims an attempt and then stalls until its lease has run out. */
  function Stall(w: World, i: PublisherId, token: Token): seq<Action> {
    [Grab(i, token, 1), Claim(i), Tick(w.now + 1)]
  }

  lemma Grabs(w: World, i: PublisherId, token: Token, n: nat, horizon: Time)
    requires Waiting(w, n) && Of(w, i).Idle? && token !in w.tokens
    ensures Enabled(w, Grab(i, token, 1), horizon)
    ensures var w' := Do(w, Grab(i, token, 1), horizon);
            && w' == Put(w.(table := w'.table), i, Granted(token, w'.table.job)).(tokens := w.tokens + {token})
            && w'.table.job == w.table.job.(lease := Some(Lease(token, w.now + 1)), updatedAt := w.now)
  {
    hide PayloadProblem;
    assert Applies(LeaseCall(Acquire(token, PublishResult, 1)), w.table, w.now, horizon);
  }

  lemma Stalls(w: World, i: PublisherId, token: Token, n: nat, horizon: Time)
    requires Waiting(w, n) && n < RESULT_MESSAGE_LIMIT && Of(w, i).Idle? && token !in w.tokens
    ensures var w' := Run(w, Stall(w, i, token), horizon);
            && Waiting(w', n + 1) && Of(w', i).Claimed? && w'.sends == w.sends && w'.tokens == w.tokens + {token}
            && forall k: nat :: k != i ==> Of(w', k) == Of(w, k)
  {
    Grabs(w, i, token, n, horizon);
    var w1 := Do(w, Grab(i, token, 1), horizon);
    ClaimCounts(w1.table, token, w1.now, horizon);
    SameProblem(w1.table.job, w.table.job);
    hide Inv, PayloadProblem, Step;
    assert Applies(ResultCall(token, ClaimMessage), w1.table, w1.now, horizon);
    var w2 := Do(w1, Claim(i), horizon);
    SameProblem(w2.table.job, w.table.job);
    assert Waiting(w2.(now := w.now + 1), n + 1);
    Three(w, Grab(i, token, 1), Claim(i), Tick(w.now + 1), horizon);
  }

  lemma Three(w: World, a: Action, b: Action, c: Action, horizon: Time)
    requires Enabled(w, a, horizon) && Enabled(Do(w, a, horizon), b, horizon)
    requires Enabled(Do(Do(w, a, horizon), b, horizon), c, horizon)
    ensures Run(w, [a, b, c], horizon) == Do(Do(Do(w, a, horizon), b, horizon), c, horizon)
  {
    hide Enabled, Do;
    Then(w, [], a, horizon);
    assert [] + [a] == [a];
    Then(w, [a], b, horizon);
    assert [a] + [b] == [a, b];
    Then(w, [a, b], c, horizon);
    assert [a, b] + [c] == [a, b, c];
  }

  lemma SameProblem(a: Job, b: Job)
    requires a.payload.Some? && a.payload == b.payload && a.id == b.id && a.resultImageKey == b.resultImageKey
    ensures PayloadProblem(a) == PayloadProblem(b)
  {}

  /** "Exhausted" is not the end of sending: three stalled publishers may all still send after it has been recorded. */
  lemma ExhaustedYetSentAgain(horizon: Time) returns (w: World, schedule: seq<Action>)
    ensures Fresh(w)
    ensures var w' := Run(w, schedule, horizon);
            w'.table.job.messageStatus == RetryExhausted && w'.sends == [] && MaySendAgain(w', horizon)
  {
    var p := FailedResult(1, "c", "m");
    var j := NewJob(1, "", 0).(payload := Some(p), nextAction := Some(PublishResult));
    w := World(Table(j, []), 0, map[], [], {});
    assert Fresh(w) by { assert p.code[0] in p.code && p.message[0] in p.message; }
    FreshIsGood(w);
    StoredResultsAreSendable(w.table);
    schedule := StalledThrice(w, horizon);
    RunKeeps(w, schedule, horizon);
    var w' := Run(w, schedule, horizon);
    assert Of(w', 0).Claimed?;
    SendAgainExactly(w', horizon);
  }

  lemma StalledThrice(w: World, horizon: Time) returns (schedule: seq<Action>)
    requires Waiting(w, 0) && w.publishers == map[] && w.sends == [] && w.tokens == {}
    ensures var w' := Run(w, schedule, horizon);
            w'.table.job.messageStatus == RetryExhausted && w'.sends == [] && Of(w', 0).Claimed?
  {
    hide Enabled, Do, Waiting;
    schedule := Stall(w, 0, 0);
    Stalls(w, 0, 0, 0, horizon);
    var w1 := Run(w, schedule, horizon);
    Stalls(w1, 1, 1, 1, horizon);
    RunAppend(w, schedule, Stall(w1, 1, 1), horizon);
    schedule := schedule + Stall(w1, 1, 1);
    var w2 := Run(w, schedule, horizon);
    Stalls(w2, 2, 2, 2, horizon);
    RunAppend(w, schedule, Stall(w2, 2, 2), horizon);
    schedule := schedule + Stall(w2, 2, 2);
    var w3 := Run(w, schedule, horizon);
    GivesUp(w3, 3, 3, horizon);
    RunAppend(w, schedule, [Grab(3, 3, 1), Exhaust(3)], horizon);
    schedule := schedule + [Grab(3, 3, 1), Exhaust(3)];
  }

  lemma GivesUp(w: World, i: PublisherId, token: Token, horizon: Time)
    requires Waiting(w, RESULT_MESSAGE_LIMIT) && Of(w, i).Idle? && token !in w.tokens
    ensures var w' := Run(w, [Grab(i, token, 1), Exhaust(i)], horizon);
            && w'.table.job.messageStatus == RetryExhausted && w'.sends == w.sends
            && forall k: nat :: k != i ==> Of(w', k) == Of(w, k)
  {
    hide Inv, PayloadProblem;
    var grab := Grab(i, token, 1);
    assert Applies(LeaseCall(Acquire(token, PublishResult, 1)), w.table, w.now, horizon);
    Then(w, [], grab, horizon);
    assert [] + [grab] == [grab];
    Then(w, [grab], Exhaust(i), horizon);
    assert [grab] + [Exhaust(i)] == [grab, Exhaust(i)];
  }

  // ----- every result comes to an end -----

  lemma ClaimRaises(t: Table, token: Token, now: Time, horizon: Time)
    requires PublishPending(t.job) && LeaseValid(t.job, token, now) && t.job.messageAttempts < RESULT_MESSAGE_LIMIT
    ensures Step(ResultCall(token, ClaimMessage), t, now, horizon)
         == Table(t.job.(messageAttempts := t.job.messageAttempts + 1, updatedAt := now), t.attempts)
    ensures Applies(ResultCall(token, ClaimMessage), t, now, horizon)
  {}

  lemma MarkPublishes(t: Table, token: Token, p: Payload, now: Time, horizon: Time)
    requires PublishPending(t.job) && LeaseValid(t.job, token, now) && 1 <= t.job.messageAttempts
    requires t.job.payload == Some(p)
    ensures var j := Step(ResultCall(token, MarkPublished(StatusOf(p))), t, now, horizon).job;
            j.messageStatus == Published && j.status == StatusOf(p)
  {}

  /** A publisher left alone: granted, claimed, sent, answered, recorded. */
  lemma Publishes(w: World, i: PublisherId, token: Token, n: nat, horizon: Time)
    requires Waiting(w, n) && n < RESULT_MESSAGE_LIMIT && Of(w, i).Idle? && token !in w.tokens
    ensures var w' := Run(w, [Grab(i, token, 1), Claim(i), SendResult(i, SendSucceeded), Mark(i)], horizon);
            var p := w.table.job.payload.value;
            && w'.table.job.messageStatus == Published && w'.table.job.status == StatusOf(p)
            && w'.sends == w.sends + [Send(n + 1, p, SendSucceeded)]
  {
    hide PayloadProblem, Step, Applies, StatusOf, AllowedToOthers, Run;
    var p := w.table.job.payload.value;
    var grab, claim, send, mark := Grab(i, token, 1), Claim(i), SendResult(i, SendSucceeded), Mark(i);
    Grabs(w, i, token, n, horizon);
    var w1 := Do(w, grab, horizon);
    SameProblem(w1.table.job, w.table.job);
    ClaimRaises(w1.table, token, w1.now, horizon);
    var w2 := Do(w1, claim, horizon);
    var w3 := Do(w2, send, horizon);
    MarkPublishes(w3.table, token, p, w3.now, horizon);
    Three(w, grab, claim, send, horizon);
    assert [grab, claim, send] + [mark] == [grab, claim, send, mark];
    Then(w, [grab, claim, send], mark, horizon);
  }

  lemma Rested(w: World, horizon: Time) returns (pause: seq<Action>)
    requires PublishPending(w.table.job) && PayloadProblem(w.table.job).None?
    ensures var w1 := Run(w, pause, horizon);
            Waiting(w1, w.table.job.messageAttempts) && Of(w1, 0).Idle? && w1.table == w.table
  {
    hide PayloadProblem, AllowedToOthers, Applies, Sendable;
    var j := w.table.job;
    var free := if j.lease.Some? && w.now < j.lease.value.until then j.lease.value.until else w.now;
    pause := [Stop(0), Tick(free)];
    Then(w, [], Stop(0), horizon);
    assert [] + [Stop(0)] == [Stop(0)];
    Then(w, [Stop(0)], Tick(free), horizon);
    assert [Stop(0)] + [Tick(free)] == pause;
  }

  lemma PendingIsDue(t: Table)
    requires Inv(t) && t.job.payload.Some? && t.job.messageStatus == Pending
    ensures PublishPending(t.job) && t.job.messageAttempts <= RESULT_MESSAGE_LIMIT
  {
    hide ResultFits, OneImageSource, Keyed;
  }

  lemma ComesToAnEnd(w: World, horizon: Time) returns (schedule: seq<Action>)
    requires Good(w) && w.table.job.payload.Some?
    ensures Run(w, schedule, horizon).table.job.messageStatus == EndOf(w.table.job)
  {
    hide Enabled, Do, Waiting, PayloadProblem, Run, Carries, Inv;
    schedule := [];
    var j := w.table.job;
    if j.messageStatus != Pending { assert Run(w, [], horizon) == w by { NoAction(w, horizon); } return; }
    StoredResultsAreSendable(w.table);
    PendingIsDue(w.table);
    var pause := Rested(w, horizon);
    var w1 := Run(w, pause, horizon);
    var token := Undrawn(w1.tokens);
    var rest := [Grab(0, token, 1), Claim(0), SendResult(0, SendSucceeded), Mark(0)];
    if j.messageAttempts < RESULT_MESSAGE_LIMIT {
      Publishes(w1, 0, token, j.messageAttempts, horizon);
    } else {
      rest := [Grab(0, token, 1), Exhaust(0)];
      GivesUp(w1, 0, token, horizon);
    }
    RunAppend(w, pause, rest, horizon);
    schedule := pause + rest;
  }

  lemma NoAction(w: World, horizon: Time)
    ensures Run(w, [], horizon) == w
  {}

  /** How a stored result can still end. */
  function EndOf(j: Job): MessageStatus {
    if j.messageStatus != Pending then j.messageStatus
    else if j.messageAttempts < RESULT_MESSAGE_LIMIT then Published else RetryExhausted
  }

  /** Wherever a run may have led, a stored result can still be brought to its end: published while it has attempts
      left, and recorded as given up once it has none. */
  lemma ResultsComeToAnEnd(w: World, before: seq<Action>, horizon: Time) returns (after: seq<Action>)
    requires Fresh(w) && Run(w, before, horizon).table.job.payload.Some?
    ensures Run(w, before + after, horizon).table.job.messageStatus == EndOf(Run(w, before, horizon).table.job)
  {
    hide Run, Good, Fresh;
    FreshIsGood(w);
    RunKeeps(w, before, horizon);
    after := ComesToAnEnd(Run(w, before, horizon), horizon);
    RunAppend(w, before, after, horizon);
  }
}
