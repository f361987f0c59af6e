/** The warm-up manager: one call at a time, a sliding window of starts, and waits that are promised and kept. */
module Warmup {
  import opened Basics

  type Time = int

  datatype Status = Started | InProgress | Cooldown | RateLimited | Unavailable
  datatype Acceptance = Acceptance(status: Status, retryAfter: Option<int>)
  datatype CallResult = Succeeded | TimedOut | OtherFailure

  /** A deque of at most max entries: the last ones appended. */
  function Latest(history: seq<Time>, max: nat): seq<Time> {
    if |history| <= max then history else history[|history| - max..]
  }

  predicate Forward(history: seq<Time>) {
    forall i, k :: 0 <= i < k < |history| ==> history[i] <= history[k]
  }

  /** Never more than max starts within one window. */
  predicate Spread(history: seq<Time>, max: nat, window: int) {
    forall i :: 0 <= i < |history| - max ==> history[i + max] - history[i] >= window
  }

  /** A start that the deque allows keeps the starts spread out. */
  lemma StartKeepsSpread(history: seq<Time>, max: nat, window: int, now: Time)
    requires max >= 1 && Spread(history, max, window)
    requires |history| >= max ==> now - history[|history| - max] >= window
    ensures Spread(history + [now], max, window)
  {
    var h := history + [now];
    forall i | 0 <= i < |h| - max
      ensures h[i + max] - h[i] >= window
    {
      assert h[i] == history[i];
      if i + max < |history| { assert h[i + max] == history[i + max]; }
    }
  }

  lemma StartGoesForward(history: seq<Time>, now: Time)
    requires Forward(history) && forall t <- history :: t <= now
    ensures Forward(history + [now]) && forall t <- history + [now] :: t <= now
  {
    assert forall i :: 0 <= i < |history| ==> history[i] in history;
  }

  lemma DequeKeepsLatest(history: seq<Time>, max: nat, now: Time)
    requires max >= 1
    ensures var d := Latest(history, max);
            && Latest(history + [now], max) == (if |d| == max then d[1..] else d) + [now]
            && (|history| >= max ==> |d| == max && d[0] == history[|history| - max])
  {}

  /** No start can be decided before p, for one of three reasons, as long as nothing is in flight. */
  predicate Blocked(p: Time, succeededAt: Option<Time>, cooldown: int, retryNotBefore: Option<Time>, starts: seq<Time>,
                    max: nat, window: int)
  {
    || (succeededAt.Some? && p <= succeededAt.value + cooldown)
    || (retryNotBefore.Some? && p <= retryNotBefore.value)
    || (starts != [] && |starts| == max && p <= starts[0] + window)
  }

  class BodyImageWarmupManager {
    const cooldown: int
    const retryInterval: int
    const timeoutRetryInterval: int
    const maxStarts: nat
    const startWindow: int
    var running: bool                    // a call is in flight
    var closed: bool
    var succeededAt: Option<Time>
    var retryNotBefore: Option<Time>
    var starts: seq<Time>                // the latest maxStarts starts, oldest first
    ghost var history: seq<Time>         // all starts
    ghost var promises: set<Time>        // instants before which a caller was told not to try again
    ghost var clock: Time                // the latest reading of the monotone clock

    ghost predicate BlockedUntil(p: Time)
      reads this
    {
      Blocked(p, succeededAt, cooldown, retryNotBefore, starts, maxStarts, startWindow)
    }

    ghost predicate Valid()
      reads this
    {
      && cooldown > 0 && retryInterval > 0 && timeoutRetryInterval > 0 && startWindow > 0 && maxStarts >= 1
      && starts == Latest(history, maxStarts) && Spread(history, maxStarts, startWindow)
      && Forward(history)
      && (forall t <- history :: t <= clock)
      // a promise lies in the past, or still stands in the way of the next start
      && (forall p <- promises :: p <= clock || (!running && BlockedUntil(p)))
    }

    constructor (cooldown: int, retryInterval: int, timeoutRetryInterval: int, maxStarts: nat, startWindow: int,
                 now: Time)
      requires cooldown > 0 && retryInterval > 0 && timeoutRetryInterval > 0 && startWindow > 0 && maxStarts >= 1
      ensures Valid() && !running && !closed && history == [] && promises == {} && clock == now
    {
      this.cooldown, this.retryInterval, this.timeoutRetryInterval := cooldown, retryInterval, timeoutRetryInterval;
      this.maxStarts, this.startWindow := maxStarts, startWindow;
      running, closed, succeededAt, retryNotBefore, starts := false, false, None, None, [];
      history, promises, clock := [], {}, now;
    }

    function Decide(now: Time): (a: Acceptance)
      requires Valid() && clock <= now
      reads this
      ensures a.status.Started? ==> !closed && !running && forall p :: BlockedUntil(p) ==> p <= now
      ensures a.status.Unavailable? <==> closed
      ensures a.status.InProgress? <==> !closed && running
      ensures a.status.Started? || a.status.Unavailable? || a.status.InProgress? <==> a.retryAfter.None?
      ensures a.retryAfter.Some? ==>
        !closed && !running && a.retryAfter.value > 0 && BlockedUntil(now + a.retryAfter.value)
    {
      if closed then Acceptance(Unavailable, None)
      else if running then Acceptance(InProgress, None)
      else if succeededAt.Some? && now - succeededAt.value < cooldown then
        Acceptance(Cooldown, Some(succeededAt.value + cooldown - now))
      else if retryNotBefore.Some? && now < retryNotBefore.value then
        Acceptance(RateLimited, Some(retryNotBefore.value - now))
      else if |starts| == maxStarts && now - starts[0] < startWindow then
        Acceptance(RateLimited, Some(starts[0] + startWindow - now))
      else Acceptance(Started, None)
    }

    /** now is read for the decision, later for the start that follows it. */
    method Request(now: Time, later: Time) returns (a: Acceptance)
      requires Valid() && clock <= now <= later
      modifies this
      ensures Valid() && clock == later && closed == old(closed)
      ensures a.status.Started? ==> !old(closed) && !old(running) && running && history == old(history) + [later]
      // every wait promised so far is over by the time a call starts
      ensures a.status.Started? ==> forall p <- old(promises) :: p <= later
      ensures !a.status.Started? ==> history == old(history) && running == old(running)
      ensures promises == if a.retryAfter.Some? then old(promises) + {now + a.retryAfter.value} else old(promises)
      ensures a.status.Unavailable? <==> old(closed)
      ensures a.status.InProgress? <==> !old(closed) && old(running)
      // after a success the cooldown is named, and only then; anything else that blocks is a limit on the rate
      ensures a.status.Cooldown? <==>
        !old(closed) && !old(running) && old(succeededAt).Some? && now < old(succeededAt).value + cooldown
      ensures a.status.Cooldown? ==>
        a.retryAfter.Some? && now + a.retryAfter.value == old(succeededAt).value + cooldown
      ensures a.status.RateLimited? ==>
        a.retryAfter.Some? &&
        var until := now + a.retryAfter.value;
        if old(retryNotBefore).Some? && now < old(retryNotBefore).value then until == old(retryNotBefore).value
        else |old(starts)| == maxStarts && until == old(starts)[0] + startWindow
      // whoever is told to wait is never told to for nothing
      ensures a.status.Started? <==>
        && !old(closed) && !old(running)
        && (old(succeededAt).Some? ==> old(succeededAt).value + cooldown <= now)
        && (old(retryNotBefore).Some? ==> old(retryNotBefore).value <= now)
        && (|old(starts)| == maxStarts ==> old(starts)[0] + startWindow <= now)
    {
      a := Decide(now);
      if a.status.Started? {
        assert forall p <- promises :: p <= later;
        DequeKeepsLatest(history, maxStarts, later);
        if |history| >= maxStarts { assert BlockedUntil(starts[0] + startWindow); }
        Start(later);
      } else {
        if a.retryAfter.Some? { promises := promises + {now + a.retryAfter.value}; }
        clock := later;
      }
    }

    method Start(now: Time)
      requires Valid() && clock <= now && !running && !closed
      requires forall p <- promises :: p <= now
      requires |history| >= maxStarts ==> now - starts[0] >= startWindow
      modifies `starts, `running, `history, `clock
      ensures Valid() && clock == now && running && history == old(history) + [now]
    {
      DequeKeepsLatest(history, maxStarts, now);
      StartKeepsSpread(history, maxStarts, startWindow, now);
      StartGoesForward(history, now);
      hide Spread, Latest, Forward;
      history := history + [now];
      starts := (if |starts| == maxStarts then starts[1..] else starts) + [now];
      running, clock := true, now;
    }

    /** The call in flight ends by itself; an unexpected error counts as an ordinary failure. */
    method Finish(now: Time, result: CallResult)
      requires Valid() && clock <= now && running
      modifies this
      ensures Valid() && clock == now && !running && closed == old(closed)
      ensures history == old(history) && promises == old(promises)
      ensures result.Succeeded? ==> succeededAt == Some(now) && retryNotBefore == None
      ensures !result.Succeeded? ==>
        succeededAt == None
        && retryNotBefore == Some(now + if result.TimedOut? then timeoutRetryInterval else retryInterval)
    {
      clock := now;
      if result.Succeeded? {
        succeededAt, retryNotBefore := Some(now), None;
      } else {
        var interval := if result.TimedOut? then timeoutRetryInterval else retryInterval;
        succeededAt, retryNotBefore := None, Some(now + interval);
      }
      running := false;
    }

    method CloseBegin()
      requires Valid()
      modifies `closed
      ensures Valid() && closed
    {
      closed := true;
    }

    /** A call cancelled by closing is recorded neither as a success nor as a failure. */
    method CloseEnd()
      requires Valid() && closed
      modifies `running
      ensures Valid() && !running
    {
      running := false;
    }
  }
}
