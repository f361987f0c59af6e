/** What the provider says about tasks in one webhook body, made unambiguous task by task. */
module WebhookEvidence {
  import opened Basics
  import opened Jobs

  datatype Kind = Processing | Succeeded | Failed
  datatype Ref = Ref(url: Option<string>, uuid: Option<nat>)

  /** rest stands for the cost and waiting hints an event carries along. */
  datatype Event = Event(task: TaskId, kind: Kind, code: Option<string>, ref: Ref, refInvalid: bool, rest: nat)

  const NO_REF := Ref(None, None)

  function InProgress(task: TaskId): Event { Event(task, Processing, None, NO_REF, false, 0) }

  /** The events about one task, in order. */
  function About(events: seq<Event>, task: TaskId): (r: seq<Event>)
    ensures forall e <- r :: e in events && e.task == task
    ensures forall e <- events :: e.task == task ==> e in r
  {
    if events == [] then []
    else
      var before := About(events[..|events| - 1], task);
      var last := events[|events| - 1];
      if last.task == task then before + [last] else before
  }

  predicate Final(e: Event) { !e.kind.Processing? }

  /** Two final results that differ, or a failure next to a progress report. */
  predicate Conflicting(events: seq<Event>, task: TaskId) {
    || (exists a <- events, b <- events ::
          a.task == task && b.task == task && Final(a) && Final(b) && (a.kind, a.code) != (b.kind, b.code))
    || (exists a <- events, b <- events :: a.task == task && b.task == task && a.kind.Failed? && b.kind.Processing?)
  }

  predicate Mentions(events: seq<Event>, task: TaskId) { exists e <- events :: e.task == task }

  /** The first n events with each conflicting task reduced to one progress report, where it first came up. */
  function Resolve(all: seq<Event>, n: nat): seq<Event>
    requires n <= |all|
  {
    if n == 0 then []
    else
      var before, e := Resolve(all, n - 1), all[n - 1];
      if !Conflicting(all, e.task) then before + [e]
      else if Mentions(before, e.task) then before
      else before + [InProgress(e.task)]
  }

  function Resolved(all: seq<Event>): seq<Event> { Resolve(all, |all|) }

  lemma {:induction false} ResolveMentions(all: seq<Event>, n: nat, task: TaskId)
    requires n <= |all|
    ensures Mentions(Resolve(all, n), task) <==> Mentions(all[..n], task)
  {
    hide Conflicting, Mentions;
    if n > 0 {
      var before, e := Resolve(all, n - 1), all[n - 1];
      ResolveMentions(all, n - 1, task);
      assert all[..n] == all[..n - 1] + [e];
      Appended(all[..n - 1], e, task);
      Appended(before, e, task);
      Appended(before, InProgress(e.task), task);
    } else {
      assert all[..n] == [];
    }
  }

  /** Task by task: untouched without a conflict, and otherwise one progress report. */
  lemma {:induction false} ResolvePerTask(all: seq<Event>, n: nat, task: TaskId)
    requires n <= |all|
    ensures About(Resolve(all, n), task) ==
              if !Conflicting(all, task) then About(all[..n], task)
              else if Mentions(all[..n], task) then [InProgress(task)] else []
  {
    hide Conflicting, Mentions;
    if n > 0 {
      var before, e := Resolve(all, n - 1), all[n - 1];
      ResolvePerTask(all, n - 1, task);
      ResolveMentions(all, n - 1, e.task);
      assert all[..n] == all[..n - 1] + [e];
      Appended(all[..n - 1], e, task);
      Appended(before, e, task);
      Appended(before, InProgress(e.task), task);
    } else {
      assert all[..n] == [];
      NobodyMentioned(task);
    }
  }

  lemma NobodyMentioned(task: TaskId)
    ensures !Mentions([], task)
  {}

  lemma Appended(events: seq<Event>, e: Event, task: TaskId)
    ensures About(events + [e], task) == if e.task == task then About(events, task) + [e] else About(events, task)
    ensures Mentions(events + [e], task) <==> Mentions(events, task) || e.task == task
  {
    assert (events + [e])[..|events|] == events;
    assert e in events + [e];
    assert forall x <- events :: x in events + [e];
  }

  lemma ConflictOfOwn(events: seq<Event>, task: TaskId)
    ensures Conflicting(events, task) <==> Conflicting(About(events, task), task)
  {}

  /** What becomes of a task's own events, told from them alone. */
  function Settled(own: seq<Event>, task: TaskId): seq<Event> {
    if Conflicting(own, task) then [InProgress(task)] else own
  }

  /** Every task is settled by itself: its events afterwards depend on no other task's, and no task comes or goes. */
  lemma TasksAreIndependent(all: seq<Event>, task: TaskId)
    ensures About(Resolved(all), task) == Settled(About(all, task), task)
    ensures Mentions(Resolved(all), task) <==> Mentions(all, task)
  {
    hide Conflicting, Mentions;
    ResolvePerTask(all, |all|, task);
    ResolveMentions(all, |all|, task);
    assert all[..|all|] == all;
    ConflictOfOwn(all, task);
    ConflictMentions(all, task);
  }

  /** A body that contradicts itself about a task says no more of it than that it is being worked on; one that does not
      is taken as it stands. */
  lemma ConflictsReadAsProgress(all: seq<Event>, task: TaskId)
    ensures var left := About(Resolved(all), task);
            if Conflicting(all, task)
            then left == [Event(task, Processing, None, Ref(None, None), false, 0)]
            else left == About(all, task)
  {
    TasksAreIndependent(all, task);
    ConflictOfOwn(all, task);
    hide Conflicting;
  }

  /** After both passes an image reference is left only where all references given for the task agree. */
  lemma RefsLeftAgree(all: seq<Event>, task: TaskId, e: Event)
    requires e in Unambiguous(Resolved(all)) && e.task == task && HasRef(e)
    ensures e in Resolved(all)
    ensures forall x <- Resolved(all) :: x.task == task && HasRef(x) ==> x.ref == e.ref
  {
    ClearedOnes(Resolved(all), e);
    hide Resolved;
  }

  lemma ConflictMentions(events: seq<Event>, task: TaskId)
    ensures Conflicting(events, task) ==> Mentions(events, task)
  {}

  lemma SettledHasNoConflict(own: seq<Event>, task: TaskId)
    ensures !Conflicting(Settled(own, task), task)
  {}

  /** After the first pass no task is in conflict, so a second pass changes nothing. */
  lemma ResolvedIsSettled(all: seq<Event>)
    ensures forall task: TaskId :: !Conflicting(Resolved(all), task)
    ensures Resolved(Resolved(all)) == Resolved(all)
  {
    hide Conflicting, Mentions;
    forall task: TaskId
      ensures !Conflicting(Resolved(all), task)
    {
      TasksAreIndependent(all, task);
      ConflictOfOwn(Resolved(all), task);
      SettledHasNoConflict(About(all, task), task);
    }
    var r := Resolved(all);
    SettledStays(r, |r|);
    assert r[..|r|] == r;
  }

  lemma {:induction false} SettledStays(all: seq<Event>, n: nat)
    requires n <= |all| && forall e <- all :: !Conflicting(all, e.task)
    ensures Resolve(all, n) == all[..n]
  {
    hide Conflicting;
    if n > 0 {
      SettledStays(all, n - 1);
      assert all[n - 1] in all && all[..n] == all[..n - 1] + [all[n - 1]];
    }
  }

  /** Events of tasks without a conflict stay in the order they came in, across tasks too. */
  function Untouched(all: seq<Event>, events: seq<Event>): seq<Event> {
    if events == [] then []
    else
      var n := |events| - 1;
      Untouched(all, events[..n]) + if Conflicting(all, events[n].task) then [] else [events[n]]
  }

  lemma {:induction false} OrderIsKept(all: seq<Event>, n: nat)
    requires n <= |all|
    ensures Untouched(all, Resolve(all, n)) == Untouched(all, all[..n])
  {
    hide Conflicting, Mentions;
    if n > 0 {
      OrderIsKept(all, n - 1);
      var before, e := Resolve(all, n - 1), all[n - 1];
      assert all[..n][..n - 1] == all[..n - 1];
      assert (before + [e])[..|before|] == before && (before + [InProgress(e.task)])[..|before|] == before;
    }
  }

  // ----- references -----

  predicate HasRef(e: Event) { e.kind.Succeeded? && (e.ref.url.Some? || e.ref.uuid.Some?) }

  predicate Ambiguous(events: seq<Event>, task: TaskId) {
    exists a <- events, b <- events :: a.task == task && b.task == task && HasRef(a) && HasRef(b) && a.ref != b.ref
  }

  function Cleared(all: seq<Event>, e: Event): Event {
    if e.kind.Succeeded? && Ambiguous(all, e.task) then e.(ref := NO_REF, refInvalid := true) else e
  }

  function Unambiguous(all: seq<Event>): seq<Event> {
    seq(|all|, i requires 0 <= i < |all| => Cleared(all, all[i]))
  }

  /** The second pass changes nothing but the successes of a task whose successes refer to two different images: each
      of these keeps what it says, loses its reference and is marked for that. */
  lemma ClearedExactly(all: seq<Event>, i: nat)
    requires i < |all|
    ensures |Unambiguous(all)| == |all|
    ensures var e := all[i];
            var disputed := e.kind.Succeeded? && exists a <- all, b <- all ::
                              && a.task == e.task && b.task == e.task && a.kind.Succeeded? && b.kind.Succeeded?
                              && a.ref != b.ref && a.ref != Ref(None, None) && b.ref != Ref(None, None);
            Unambiguous(all)[i] ==
              if disputed then Event(e.task, Succeeded, e.code, Ref(None, None), true, e.rest) else e
  {
    var e := all[i];
    assert Unambiguous(all)[i] == Cleared(all, e);
    if a, b :| a in all && b in all && a.task == e.task && b.task == e.task && a.kind.Succeeded? && b.kind.Succeeded?
               && a.ref != b.ref && a.ref != Ref(None, None) && b.ref != Ref(None, None) {
      assert HasRef(a) && HasRef(b) && Ambiguous(all, e.task);
    }
  }

  /** What both passes leave of a task: progress and successes with one reference at most, or failures with one code. */
  predicate Clear(events: seq<Event>, task: TaskId) {
    || ((forall e <- events :: e.task == task ==> !e.kind.Failed?) && !Ambiguous(events, task))
    || (forall a <- events, b <- events :: a.task == task && b.task == task ==> a.kind.Failed? && a.code == b.code)
  }

  lemma ClearedOnes(all: seq<Event>, e: Event)
    requires e in Unambiguous(all)
    ensures exists x <- all :: e == Cleared(all, x)
  {
    var i :| 0 <= i < |all| && Unambiguous(all)[i] == e;
    assert all[i] in all;
  }

  lemma NoneAmbiguousAfter(all: seq<Event>, task: TaskId)
    ensures !Ambiguous(Unambiguous(all), task)
  {
    var r := Unambiguous(all);
    forall a <- r, b <- r | a.task == task && b.task == task && HasRef(a) && HasRef(b)
      ensures a.ref == b.ref
    {
      ClearedOnes(all, a);
      ClearedOnes(all, b);
    }
  }

  lemma UnambiguousIsClear(all: seq<Event>, task: TaskId)
    requires !Conflicting(all, task)
    ensures Clear(Unambiguous(all), task)
  {
    var r := Unambiguous(all);
    NoneAmbiguousAfter(all, task);
    hide Ambiguous, Unambiguous;
    forall e <- r
      ensures exists x <- all :: x.task == e.task && x.kind == e.kind && x.code == e.code
    {
      ClearedOnes(all, e);
    }
  }

  /** Both passes together: every task clear, the same tasks as before, and nothing left to do for a second run. */
  lemma NormalisedIsClear(all: seq<Event>, task: TaskId)
    ensures Clear(Unambiguous(Resolved(all)), task)
    ensures Mentions(Unambiguous(Resolved(all)), task) <==> Mentions(all, task)
  {
    var r := Resolved(all);
    ResolvedIsSettled(all);
    TasksAreIndependent(all, task);
    UnambiguousIsClear(r, task);
    var u := Unambiguous(r);
    hide Conflicting, Clear, Cleared;
    assert forall i :: 0 <= i < |r| ==> u[i].task == r[i].task && r[i] in r && u[i] in u;
  }

  /** Running both passes on their own result changes nothing. */
  lemma NormalisedTwice(all: seq<Event>)
    ensures var u := Unambiguous(Resolved(all)); Unambiguous(Resolved(u)) == u
  {
    var r := Resolved(all);
    var u := Unambiguous(r);
    ResolvedIsSettled(all);
    forall e <- u
      ensures !Conflicting(u, e.task) && Cleared(u, e) == e
    {
      ClearedKeepsConflicts(r, e.task);
      NoneAmbiguousAfter(r, e.task);
    }
    hide Conflicting, Cleared;
    SettledStays(u, |u|);
    assert u[..|u|] == u;
    assert forall i :: 0 <= i < |u| ==> u[i] in u;
  }

  lemma ClearedKeepsConflicts(all: seq<Event>, task: TaskId)
    requires !Conflicting(all, task)
    ensures !Conflicting(Unambiguous(all), task)
  {
    var r := Unambiguous(all);
    hide Unambiguous, Ambiguous;
    forall e <- r
      ensures exists x <- all :: x.task == e.task && x.kind == e.kind && x.code == e.code
    {
      ClearedOnes(all, e);
    }
  }

  // ----- the passes as they run -----

  /** The final results seen so far, per task. */
  predicate FinalsOf(finals: map<TaskId, set<(Kind, Option<string>)>>, events: seq<Event>) {
    && (forall task <- finals, f <- finals[task] ::
          exists e <- events :: Final(e) && e.task == task && (e.kind, e.code) == f)
    && (forall e <- events :: Final(e) ==> e.task in finals && (e.kind, e.code) in finals[e.task])
  }

  lemma TwoMembers<T>(s: set<T>)
    ensures |s| > 1 <==> exists a, b :: a in s && b in s && a != b
  {
    if a, b :| a in s && b in s && a != b {
      assert {a, b} <= s;
      assert s == {a, b} + (s - {a, b});
    }
    if |s| > 1 {
      var a :| a in s;
      var rest := s - {a};
      assert |rest| == |s| - 1;
      var b :| b in rest;
    }
  }

  method FinalResults(events: seq<Event>) returns (finals: map<TaskId, set<(Kind, Option<string>)>>)
    ensures FinalsOf(finals, events)
  {
    finals := map[];
    for i := 0 to |events|
      invariant FinalsOf(finals, events[..i])
    {
      var e := events[i];
      assert events[..i + 1] == events[..i] + [e];
      if Final(e) {
        var seen := if e.task in finals then finals[e.task] else {};
        finals := finals[e.task := seen + {(e.kind, e.code)}];
      }
    }
    assert events[..|events|] == events;
  }

  function FailedInProgress(events: seq<Event>): set<TaskId> {
    var processing := set e | e in events && e.kind.Processing? :: e.task;
    set e | e in events && e.kind.Failed? && e.task in processing :: e.task
  }

  /** More than one final result, or a failure beside progress: the two ways to conflict, as sets. */
  lemma ConflictSets(events: seq<Event>, finals: map<TaskId, set<(Kind, Option<string>)>>, task: TaskId)
    requires FinalsOf(finals, events)
    ensures Conflicting(events, task) <==> (task in finals && |finals[task]| > 1) || task in FailedInProgress(events)
  {
    if task in finals { TwoMembers(finals[task]); }
  }

  method WithoutConflictingResults(events: seq<Event>) returns (kept: seq<Event>)
    ensures kept == Resolved(events)
  {
    hide Conflicting, FinalsOf, FailedInProgress;
    var finals := FinalResults(events);
    var conflicting := (set task | task in finals && |finals[task]| > 1) + FailedInProgress(events);
    forall task: TaskId
      ensures task in conflicting <==> Conflicting(events, task)
    {
      ConflictSets(events, finals, task);
    }
    if conflicting == {} {
      SettledStays(events, |events|);
      assert events[..|events|] == events;
      return events;
    }
    kept := [];
    for i := 0 to |events|
      invariant kept == Resolve(events, i)
    {
      var e := events[i];
      if e.task !in conflicting {
        kept := kept + [e];
      } else if !Mentions(kept, e.task) {
        kept := kept + [InProgress(e.task)];
      }
    }
  }
}
