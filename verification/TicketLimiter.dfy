/**
 The ticket queue in front of body-image validation. A request runs under the condition's lock from one wait to the
 next, so each method here is one step; a waiting request that has been notified, timed out or cancelled is due to run.
 */
module TicketLimiter {
  import opened Basics
  import opened DirectLimiter

  datatype Entry = Running | Refused | Expired | Queueing

  /** Tickets, grants and holders in order: slots go out by ticket, and every holder is on record. */
  predicate InLine(queue: seq<nat>, grants: seq<nat>, holders: set<nat>, arrivals: nat) {
    && Ascending(queue) && Ascending(grants)
    && (forall t <- queue :: t < arrivals && t !in holders) && (forall t <- grants :: t < arrivals)
    && (forall g <- grants, t <- queue :: g < t) && (forall t <- holders :: t in grants)
  }

  /** The next ticket takes a slot past an empty queue, or goes to its end. */
  lemma NextTicket(queue: seq<nat>, grants: seq<nat>, holders: set<nat>, ticket: nat)
    requires InLine(queue, grants, holders, ticket)
    ensures InLine(queue, grants, holders, ticket + 1) && InLine(queue + [ticket], grants, holders, ticket + 1)
    ensures queue == [] ==> InLine([], grants + [ticket], holders + {ticket}, ticket + 1)
    ensures ticket !in holders
  {
    Appended(queue, ticket);
    Appended(grants, ticket);
  }

  lemma TicketLeaves(queue: seq<nat>, grants: seq<nat>, holders: set<nat>, arrivals: nat, ticket: nat)
    requires InLine(queue, grants, holders, arrivals) && ticket in queue
    ensures InLine(Removed(queue, ticket), grants, holders, arrivals)
    ensures |Removed(queue, ticket)| == |queue| - 1 && ticket !in holders
  {
    RemovedFits(queue, ticket);
  }

  lemma HeadServed(queue: seq<nat>, grants: seq<nat>, holders: set<nat>, arrivals: nat)
    requires InLine(queue, grants, holders, arrivals) && queue != []
    ensures InLine(Removed(queue, queue[0]), grants + [queue[0]], holders + {queue[0]}, arrivals)
  {
    assert Removed(queue, queue[0]) == queue[1..];
    Tail(queue);
    Appended(grants, queue[0]);
  }

  class AsyncBodyValidationLimiter {
    const maxRunning: nat
    const maxWaiting: nat
    var running: nat
    var queue: seq<nat>        // tickets, numbered in order of arrival
    var due: set<nat>          // tickets with a wake-up on its way
    var arrivals: nat
    ghost var holders: set<nat>
    ghost var grants: seq<nat> // tickets in the order they got a slot

    ghost predicate Valid()
      reads this
    {
      && running == |holders| <= maxRunning && |queue| <= maxWaiting && InLine(queue, grants, holders, arrivals)
      // no lost wake-up: a free slot and a head of the queue have found each other, or are about to
      && (forall t <- due :: t in queue) && (running < maxRunning && queue != [] ==> queue[0] in due)
    }

    constructor (maxRunning: nat, maxWaiting: nat)
      requires maxRunning >= 1
      ensures Valid() && running == 0 && queue == [] && this.maxRunning == maxRunning && this.maxWaiting == maxWaiting
    {
      this.maxRunning, this.maxWaiting := maxRunning, maxWaiting;
      running, queue, due, arrivals, holders, grants := 0, [], {}, 0, {}, [];
    }

    /** condition.notify_all. */
    method NotifyAll()
      modifies `due
      ensures due == set t | t in queue
    {
      due := set t | t in queue;
    }

    /** The first step of acquire; patience is what is left of the caller's time, if that is limited. */
    method Enter(patience: Option<int>) returns (ticket: nat, entry: Entry)
      requires Valid()
      modifies this
      ensures Valid() && ticket == old(arrivals)
      ensures entry.Running? <==> old(running) < maxRunning && old(queue) == []
      ensures entry.Refused? <==> (old(running) == maxRunning || old(queue) != []) && |old(queue)| >= maxWaiting
      ensures entry.Expired? <==>
        && (old(running) == maxRunning || old(queue) != []) && |old(queue)| < maxWaiting
        && patience.Some? && patience.value <= 0
      ensures entry.Running? ==> holders == old(holders) + {ticket} && running == old(running) + 1 && queue == []
      ensures !entry.Running? ==> holders == old(holders) && running == old(running)
      ensures queue == if entry.Queueing? then old(queue) + [ticket] else old(queue)
      ensures entry.Refused? ==> due == old(due)
      ensures entry.Expired? ==> due == set t | t in queue
    {
      hide InLine;
      ticket, arrivals := arrivals, arrivals + 1;
      NextTicket(queue, grants, holders, ticket);
      if running < maxRunning && queue == [] {
        holders, grants := holders + {ticket}, grants + [ticket];
        running := running + 1;
        return ticket, Running;
      }
      if |queue| >= maxWaiting { return ticket, Refused; }
      if patience.Some? && patience.value <= 0 {
        // the ticket joins and leaves the queue in one step
        NotifyAll();
        return ticket, Expired;
      }
      queue := queue + [ticket];
      entry := Queueing;
    }

    /** A timeout or a cancellation comes for a waiting ticket: it is due to run, like a notified one. */
    method Rouse(ticket: nat)
      requires Valid() && ticket in queue
      modifies `due
      ensures Valid() && due == old(due) + {ticket}
    {
      due := due + {ticket};
    }

    /** A due ticket runs: it takes the slot if it is at the head and one is free, even when its time is over. */
    method Wake(ticket: nat, cancelled: bool, expired: bool) returns (entry: Entry)
      requires Valid() && ticket in queue && ticket in due
      modifies this
      ensures Valid() && arrivals == old(arrivals)
      ensures entry.Running? <==> !cancelled && old(queue)[0] == ticket && old(running) < maxRunning
      ensures entry.Queueing? <==> !cancelled && !expired && !(old(queue)[0] == ticket && old(running) < maxRunning)
      ensures !entry.Refused?
      ensures entry.Running? ==> holders == old(holders) + {ticket} && grants == old(grants) + [ticket]
      ensures !entry.Running? ==> holders == old(holders) && running == old(running)
      ensures queue == if entry.Queueing? then old(queue) else Removed(old(queue), ticket)
      ensures due == if entry.Queueing? then old(due) - {ticket} else set t | t in queue
    {
      hide InLine, Removed;
      var mine := !cancelled && queue[0] == ticket && running < maxRunning;
      if !cancelled && !mine && !expired {
        due := due - {ticket};
        return Queueing;
      }
      TicketLeaves(queue, grants, holders, arrivals, ticket);
      if mine {
        HeadServed(queue, grants, holders, arrivals);
        running, holders, grants := running + 1, holders + {ticket}, grants + [ticket];
      }
      queue := Removed(queue, ticket);
      NotifyAll();
      entry := if mine then Running else Expired;
    }

    /** Give the slot back exactly once. Cancellations that come while it waits for the lock only make it ask for the
        lock again; the last of them is passed on afterwards. */
    method Release(ticket: nat, cancellations: nat) returns (cancelled: bool)
      requires Valid() && ticket in holders
      modifies this
      ensures Valid() && running == old(running) - 1 && holders == old(holders) - {ticket}
      ensures queue == old(queue) && due == (set t | t in queue) && arrivals == old(arrivals)
      ensures cancelled <==> cancellations > 0
    {
      cancelled := cancellations > 0;
      running, holders := running - 1, holders - {ticket};
      NotifyAll();
    }
  }

  /** What holds at every point of every interleaving of entries, wake-ups and releases. */
  lemma TicketPromises(l: AsyncBodyValidationLimiter)
    requires l.Valid()
    ensures |l.holders| == l.running <= l.maxRunning && |l.queue| <= l.maxWaiting
    ensures l.running < l.maxRunning && l.queue != [] ==> l.queue[0] in l.due
    ensures forall i, k :: 0 <= i < k < |l.grants| ==> l.grants[i] < l.grants[k]
    ensures forall t <- l.queue :: l.queue[0] <= t
  {
    forall t <- l.queue
      ensures l.queue[0] <= t
    {
      var i :| 0 <= i < |l.queue| && l.queue[i] == t;
    }
  }
}
