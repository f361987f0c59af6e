/**
 The in-process limiter of external calls. Everything between two awaits is one step; a slot given back is handed
 straight to the longest waiting request, which may be timed out or cancelled before it gets to run.
 */
module DirectLimiter {
  import opened Basics

  /** A waiting request's future: not decided, slot handed over, or cancelled by a timeout or from outside. */
  datatype Future = Pending | Handed | Cancelled

  datatype Outcome = Acquired | Busy | Suspended

  predicate Ascending(s: seq<nat>) { forall i, k :: 0 <= i < k < |s| ==> s[i] < s[k] }

  lemma Appended(s: seq<nat>, r: nat)
    requires Ascending(s) && forall x <- s :: x < r
    ensures Ascending(s + [r]) && forall x :: x in s + [r] <==> x in s || x == r
  {
    assert (s + [r])[|s|] == r;
    assert forall i :: 0 <= i < |s| ==> (s + [r])[i] == s[i] && s[i] in s;
  }

  lemma Tail(s: seq<nat>)
    requires Ascending(s) && s != []
    ensures Ascending(s[1..])
    ensures forall x :: x in s <==> x == s[0] || x in s[1..]
    ensures forall x <- s[1..] :: s[0] < x
  {
    assert forall i :: 0 <= i < |s| - 1 ==> s[1..][i] == s[i + 1];
    assert s == [s[0]] + s[1..];
  }

  function HandedOver(futures: map<nat, Future>): set<nat> { set r | r in futures && futures[r].Handed? }

  /** Position of the first waiter that has not been cancelled. */
  function FirstPending(waiters: seq<nat>, futures: map<nat, Future>): (k: nat)
    ensures k <= |waiters|
    ensures forall i :: 0 <= i < k ==> !(waiters[i] in futures && futures[waiters[i]].Pending?)
    ensures k < |waiters| ==> waiters[k] in futures && futures[waiters[k]].Pending?
  {
    if waiters == [] || (waiters[0] in futures && futures[waiters[0]].Pending?) then 0
    else 1 + FirstPending(waiters[1..], futures)
  }

  /** slack is 1 while a slot is being given back, and 0 otherwise. */
  predicate Counted(running: nat, max: nat, holders: set<nat>, futures: map<nat, Future>, slack: nat) {
    running <= max && running == |holders| + |HandedOver(futures)| + slack && holders !! futures.Keys
  }

  predicate Queued(waiters: seq<nat>, futures: map<nat, Future>, maxWaiting: Option<nat>, holders: set<nat>,
                   arrivals: nat)
  {
    && Ascending(waiters) && (forall r <- waiters :: r in futures && !futures[r].Handed?)
    && (forall r <- futures :: futures[r].Pending? ==> r in waiters)
    && (maxWaiting.Some? ==> |waiters| <= maxWaiting.value)
    && (forall r <- futures :: r < arrivals) && (forall r <- holders :: r < arrivals)
  }

  /** Slots go out in order of arrival, and every request with a slot is on record. */
  predicate Ordered(grants: seq<nat>, waiters: seq<nat>, holders: set<nat>, futures: map<nat, Future>, arrivals: nat) {
    && Ascending(grants) && (forall r <- grants :: r < arrivals)
    && (forall g <- grants, r <- waiters :: g < r)
    && (forall r <- holders :: r in grants) && (forall r <- HandedOver(futures) :: r in grants)
  }

  lemma HandOne(futures: map<nat, Future>, r: nat)
    requires r in futures && futures[r].Pending?
    ensures HandedOver(futures[r := Handed]) == HandedOver(futures) + {r} && r !in HandedOver(futures)
    ensures |HandedOver(futures[r := Handed])| == |HandedOver(futures)| + 1
  {
    assert HandedOver(futures[r := Handed]) == HandedOver(futures) + {r};
  }

  lemma Dropped(s: seq<nat>, k: nat)
    requires Ascending(s) && k < |s|
    ensures Ascending(s[k + 1..]) && forall x <- s[k + 1..] :: x in s && s[k] < x
    ensures forall x <- s :: x in s[k + 1..] || x == s[k] || x in s[..k]
  {
    assert s == s[..k] + [s[k]] + s[k + 1..];
  }

  /** Handing the slot to the first pending waiter keeps the queue in order. */
  lemma HandKeepsQueue(waiters: seq<nat>, futures: map<nat, Future>, maxWaiting: Option<nat>, holders: set<nat>,
                       arrivals: nat, k: nat)
    requires Queued(waiters, futures, maxWaiting, holders, arrivals) && k == FirstPending(waiters, futures) < |waiters|
    ensures Queued(waiters[k + 1..], futures[waiters[k] := Handed], maxWaiting, holders, arrivals)
  {
    Dropped(waiters, k);
    assert forall x <- waiters[..k] :: !futures[x].Pending?;
  }

  lemma HandKeepsOrder(grants: seq<nat>, waiters: seq<nat>, futures: map<nat, Future>, maxWaiting: Option<nat>,
                       holders: set<nat>, arrivals: nat, k: nat)
    requires Queued(waiters, futures, maxWaiting, holders, arrivals) && k == FirstPending(waiters, futures) < |waiters|
    requires Ordered(grants, waiters, holders, futures, arrivals)
    ensures Ordered(grants + [waiters[k]], waiters[k + 1..], holders, futures[waiters[k] := Handed], arrivals)
  {
    Dropped(waiters, k);
    assert waiters[k] in waiters;
    Appended(grants, waiters[k]);
    HandOne(futures, waiters[k]);
  }

  /** With nobody left to hand it to, the slot becomes free. */
  lemma FreeKeepsQueue(waiters: seq<nat>, futures: map<nat, Future>, maxWaiting: Option<nat>, holders: set<nat>,
                       arrivals: nat)
    requires Queued(waiters, futures, maxWaiting, holders, arrivals) && FirstPending(waiters, futures) == |waiters|
    ensures Queued([], futures, maxWaiting, holders, arrivals)
  {}

  lemma JoinKeeps(grants: seq<nat>, waiters: seq<nat>, futures: map<nat, Future>, maxWaiting: Option<nat>,
                  holders: set<nat>, r: nat)
    requires Queued(waiters, futures, maxWaiting, holders, r) && Ordered(grants, waiters, holders, futures, r)
    requires maxWaiting.Some? ==> |waiters| < maxWaiting.value
    ensures Queued(waiters + [r], futures[r := Pending], maxWaiting, holders, r + 1)
    ensures Ordered(grants, waiters + [r], holders, futures[r := Pending], r + 1)
    ensures HandedOver(futures[r := Pending]) == HandedOver(futures)
  {
    assert HandedOver(futures[r := Pending]) == HandedOver(futures);
    assert forall w <- waiters :: w in futures;
    Appended(waiters, r);
  }

  lemma RefuseKeeps(grants: seq<nat>, waiters: seq<nat>, futures: map<nat, Future>, maxWaiting: Option<nat>,
                    holders: set<nat>, r: nat)
    requires Queued(waiters, futures, maxWaiting, holders, r) && Ordered(grants, waiters, holders, futures, r)
    ensures Queued(waiters, futures, maxWaiting, holders, r + 1) && Ordered(grants, waiters, holders, futures, r + 1)
    ensures r !in futures && r !in holders
  {}

  /** A slot taken without waiting: nobody waits, so nobody is overtaken. */
  lemma TakeKeeps(grants: seq<nat>, futures: map<nat, Future>, maxWaiting: Option<nat>, holders: set<nat>, r: nat)
    requires Queued([], futures, maxWaiting, holders, r) && Ordered(grants, [], holders, futures, r)
    ensures Queued([], futures, maxWaiting, holders + {r}, r + 1)
    ensures Ordered(grants + [r], [], holders + {r}, futures, r + 1)
  {
    Appended(grants, r);
  }

  /** A cancelled request cleans up after itself, wherever it stands. */
  lemma CleanupKeeps(grants: seq<nat>, waiters: seq<nat>, futures: map<nat, Future>, maxWaiting: Option<nat>,
                     holders: set<nat>, arrivals: nat, r: nat)
    requires Queued(waiters, futures, maxWaiting, holders, arrivals)
    requires Ordered(grants, waiters, holders, futures, arrivals)
    requires r in futures && futures[r].Cancelled?
    ensures var left := if r in waiters then Removed(waiters, r) else waiters;
            && Queued(left, futures - {r}, maxWaiting, holders, arrivals)
            && Ordered(grants, left, holders, futures - {r}, arrivals)
    ensures HandedOver(futures - {r}) == HandedOver(futures)
  {
    if r in waiters { RemovedFits(waiters, r); }
  }

  /** A request that was handed a slot leaves the queue's books, as a holder or not. */
  lemma TakenUpKeeps(grants: seq<nat>, waiters: seq<nat>, futures: map<nat, Future>, maxWaiting: Option<nat>,
                     holders: set<nat>, arrivals: nat, r: nat)
    requires Queued(waiters, futures, maxWaiting, holders, arrivals)
    requires Ordered(grants, waiters, holders, futures, arrivals)
    requires r in futures && futures[r].Handed?
    ensures forall h :: h == holders || h == holders + {r} ==>
              && Queued(waiters, futures - {r}, maxWaiting, h, arrivals)
              && Ordered(grants, waiters, h, futures - {r}, arrivals)
    ensures HandedOver(futures - {r}) == HandedOver(futures) - {r} && r !in waiters
    ensures |HandedOver(futures - {r})| == |HandedOver(futures)| - 1
  {
    assert HandedOver(futures - {r}) == HandedOver(futures) - {r};
  }

  class ConcurrencyLimiter {
    const maxRunning: nat
    const maxWaiting: Option<nat>
    var running: nat
    var waiters: seq<nat>           // requests are named by their order of arrival
    var futures: map<nat, Future>   // of the requests suspended in acquire
    var arrivals: nat
    ghost var holders: set<nat>     // requests inside the block
    ghost var grants: seq<nat>      // requests in the order they were given a slot

    ghost predicate Fits(slack: nat)
      reads this
    {
      && Counted(running, maxRunning, holders, futures, slack)
      && Queued(waiters, futures, maxWaiting, holders, arrivals) && Ordered(grants, waiters, holders, futures, arrivals)
      && (running < maxRunning ==> waiters == [])
    }

    ghost predicate Valid()
      reads this
    {
      Fits(0)
    }

    constructor (maxRunning: nat, maxWaiting: Option<nat>)
      requires maxRunning >= 1
      ensures Valid() && running == 0 && waiters == [] && grants == []
      ensures this.maxRunning == maxRunning && this.maxWaiting == maxWaiting
    {
      this.maxRunning, this.maxWaiting := maxRunning, maxWaiting;
      running, waiters, futures, arrivals, holders, grants := 0, [], map[], 0, {}, [];
    }

    /** The part of acquire up to the await: a free slot, a refusal, or a place in the queue. */
    method Arrive() returns (r: nat, outcome: Outcome)
      requires Valid()
      modifies this
      ensures Valid() && r == old(arrivals) && arrivals == r + 1
      ensures outcome.Acquired? <==> old(running) < maxRunning
      ensures outcome.Busy? <==>
        old(running) == maxRunning && maxWaiting.Some? && |old(waiters)| >= maxWaiting.value
      ensures outcome.Acquired? ==> holders == old(holders) + {r} && grants == old(grants) + [r]
      ensures !outcome.Acquired? ==> holders == old(holders) && grants == old(grants) && running == old(running)
      ensures outcome.Suspended? ==> waiters == old(waiters) + [r] && futures == old(futures)[r := Pending]
      ensures !outcome.Suspended? ==> waiters == old(waiters) && futures == old(futures)
    {
      hide Queued, Ordered;
      r, arrivals := arrivals, arrivals + 1;
      RefuseKeeps(grants, waiters, futures, maxWaiting, holders, r);
      if running < maxRunning {
        TakeKeeps(grants, futures, maxWaiting, holders, r);
        running, holders, grants := running + 1, holders + {r}, grants + [r];
        return r, Acquired;
      }
      if maxWaiting.Some? && |waiters| >= maxWaiting.value { return r, Busy; }
      JoinKeeps(grants, waiters, futures, maxWaiting, holders, r);
      waiters, futures := waiters + [r], futures[r := Pending];
      outcome := Suspended;
    }

    /** Give one slot to the longest waiting request that still wants it, or free it. */
    method Release()
      requires Fits(1)
      modifies `running, `waiters, `futures, `grants
      ensures Valid()
      ensures var k := FirstPending(old(waiters), old(futures));
        if k < |old(waiters)| then
          && waiters == old(waiters)[k + 1..] && futures == old(futures)[old(waiters)[k] := Handed]
          && running == old(running) && grants == old(grants) + [old(waiters)[k]]
        else waiters == [] && futures == old(futures) && running == old(running) - 1 && grants == old(grants)
    {
      hide Queued, Ordered;
      ghost var was, k, n := waiters, FirstPending(waiters, futures), 0;
      while waiters != []
        invariant 0 <= n <= k <= |was| && waiters == was[n..]
        invariant futures == old(futures) && running == old(running) && grants == old(grants)
      {
        var r := waiters[0];
        waiters := waiters[1..];
        assert r == was[n] && waiters == was[n + 1..];
        if r in futures && futures[r].Pending? {
          assert n == k;
          HandKeepsQueue(was, futures, maxWaiting, holders, arrivals, k);
          HandKeepsOrder(grants, was, futures, maxWaiting, holders, arrivals, k);
          HandOne(futures, r);
          futures, grants := futures[r := Handed], grants + [r];
          return;
        }
        n := n + 1;
      }
      FreeKeepsQueue(was, futures, maxWaiting, holders, arrivals);
      OrderOfNone(grants, was, holders, futures, arrivals);
      running := running - 1;
    }

    lemma OrderOfNone(grants: seq<nat>, waiters: seq<nat>, holders: set<nat>, futures: map<nat, Future>, arrivals: nat)
      requires Ordered(grants, waiters, holders, futures, arrivals)
      ensures Ordered(grants, [], holders, futures, arrivals)
    {}

    /** Timeout or cancellation reaches a request that is still waiting. */
    method Interrupt(r: nat)
      requires Valid() && r in futures && futures[r].Pending?
      modifies `futures
      ensures Valid() && futures == old(futures)[r := Cancelled]
    {
      assert HandedOver(futures[r := Cancelled]) == HandedOver(futures);
      futures := futures[r := Cancelled];
    }

    /** The rest of acquire once its future is decided; late says that the task was interrupted after the hand-over. */
    method Resume(r: nat, late: bool) returns (acquired: bool)
      requires Valid() && r in futures && !futures[r].Pending?
      modifies this
      ensures Valid() && arrivals == old(arrivals) && r !in futures
      ensures acquired <==> old(futures[r]).Handed? && !late
      ensures holders == if acquired then old(holders) + {r} else old(holders)
      ensures acquired || old(futures[r]).Cancelled? ==> running == old(running) && grants == old(grants)
      // a slot received too late goes on to the next one waiting
      ensures old(futures[r]).Handed? && late ==>
        var k := FirstPending(old(waiters), old(futures) - {r});
        if k < |old(waiters)| then running == old(running) && grants == old(grants) + [old(waiters)[k]]
        else running == old(running) - 1 && grants == old(grants)
    {
      hide Queued, Ordered, Removed;
      acquired := futures[r].Handed? && !late;
      if futures[r].Handed? {
        TakenUpKeeps(grants, waiters, futures, maxWaiting, holders, arrivals, r);
        futures := futures - {r};
        if acquired {
          holders := holders + {r};
        } else {
          Release();
        }
      } else {
        CleanupKeeps(grants, waiters, futures, maxWaiting, holders, arrivals, r);
        if r in waiters { waiters := Removed(waiters, r); }
        futures := futures - {r};
      }
    }

    /** Leaving the block, however it ends. */
    method Leave(r: nat)
      requires Valid() && r in holders
      modifies this
      ensures Valid() && holders == old(holders) - {r} && arrivals == old(arrivals)
      ensures var k := FirstPending(old(waiters), old(futures));
        k < |old(waiters)| ==> running == old(running) && grants == old(grants) + [old(waiters)[k]]
    {
      holders := holders - {r};
      Release();
    }
  }

  /** What holds at every point of every interleaving of arrivals, interruptions, resumptions and departures. */
  lemma LimiterPromises(l: ConcurrencyLimiter)
    requires l.Valid()
    ensures |l.holders| + |HandedOver(l.futures)| == l.running <= l.maxRunning
    ensures l.running < l.maxRunning ==> forall r <- l.futures :: !l.futures[r].Pending?
    ensures forall i, k :: 0 <= i < k < |l.grants| ==> l.grants[i] < l.grants[k]
    ensures forall g <- l.grants, r <- l.futures :: l.futures[r].Pending? ==> g < r
  {}

  function Position(s: seq<nat>, r: nat): (i: nat)
    requires r in s
    ensures i < |s| && s[i] == r
  {
    if s[0] == r then 0 else 1 + Position(s[1..], r)
  }

  /** deque.remove. */
  function Removed(s: seq<nat>, r: nat): seq<nat>
    requires r in s
  {
    s[..Position(s, r)] + s[Position(s, r) + 1..]
  }

  lemma RemovedFits(s: seq<nat>, r: nat)
    requires Ascending(s) && r in s
    ensures Ascending(Removed(s, r)) && |Removed(s, r)| == |s| - 1
    ensures forall x :: x in Removed(s, r) <==> x in s && x != r
  {
    var p, t := Position(s, r), Removed(s, r);
    assert forall i :: 0 <= i < |t| ==> t[i] == s[if i < p then i else i + 1];
    forall x | x in s && x != r
      ensures x in t
    {
      var i :| 0 <= i < |s| && s[i] == x;
      assert t[if i < p then i else i - 1] == x;
    }
  }
}
