/** What an error code of the provider says about the task it is attached to. */
module TaskErrors {
  import opened Basics

  datatype ErrorKind = NotAcceptedError | GenerationFallback | GenerationFailed | AuthError | Unclear

  const OVERLOADED := "serviceOverloaded"
  const RATE_LIMITED := "inferenceRateLimitExceeded"
  const TIMEOUT_PROVIDER := "timeoutProvider"
  const INVALID_KEY := "invalidApiKey"

  function Classify(code: Option<string>): ErrorKind {
    if code == Some(OVERLOADED) || code == Some(RATE_LIMITED) then NotAcceptedError
    else if code == Some(TIMEOUT_PROVIDER) then GenerationFallback
    // no code is documented as a final generation failure
    else if code == Some(INVALID_KEY) then AuthError
    else Unclear
  }

  /** The task an item names: written as stored, written differently, unreadable, or missing. */
  datatype Named = Nobody | Exactly(task: nat) | Variant(task: nat) | Garbage

  datatype ItemStatus = Processing | Success | Failure | OtherStatus

  /** code is None unless it is a string; safe says it also has the form of a code. */
  datatype Item = Item(named: Named, status: ItemStatus, code: Option<string>, safe: bool, url: Option<string>,
                       uuid: Option<nat>)

  predicate Same(i: Item, task: nat) { i.named == Exactly(task) || i.named == Variant(task) }

  predicate AnySame(items: seq<Item>, task: nat, status: ItemStatus) {
    exists i <- items :: Same(i, task) && i.status == status
  }

  /** The item speaks of the task, however it writes its number. */
  predicate About(i: Item, task: nat) { (i.named.Exactly? || i.named.Variant?) && i.named.task == task }
}

/** Reading the answer to a status query for one task. */
module StatusEvidence {
  import opened Basics
  import opened TaskErrors

  datatype Answer =
    | InProgress
    | Succeeded(url: Option<string>, uuid: Option<nat>)
    | Failed(code: Option<string>)
    | NotFound
    | Unknown

  /** Everything in the answer that reports an error for the task. */
  function Errors(items: seq<Item>, errors: seq<Item>, task: nat): set<Option<string>> {
    (set e | e in errors && Same(e, task) :: Readable(e))
    + (set i | i in items && Same(i, task) && i.status.Failure? :: Readable(i))
  }

  function Readable(i: Item): Option<string> { if i.safe then i.code else None }

  predicate Conclusive(i: Item, task: nat) { About(i, task) && (i.status.Processing? || i.status.Success?) }

  /** The first item that reports progress or success for the task, or |items|. */
  function FirstConclusive(items: seq<Item>, task: nat): (k: nat)
    ensures k <= |items| && (k < |items| ==> Conclusive(items[k], task))
    ensures forall m :: 0 <= m < k ==> !Conclusive(items[m], task)
  {
    if items == [] || Conclusive(items[0], task) then 0 else 1 + FirstConclusive(items[1..], task)
  }

  predicate Failing(i: Item, task: nat) { About(i, task) && i.status.Failure? }

  /** What the failing items among the first k add to the errors. */
  function Collected(items: seq<Item>, errors: seq<Item>, task: nat, k: nat): seq<Item>
    requires k <= |items|
  {
    if k == 0 then errors
    else Collected(items, errors, task, k - 1) + if Failing(items[k - 1], task) then [items[k - 1]] else []
  }

  lemma {:induction false} CollectedHolds(items: seq<Item>, errors: seq<Item>, task: nat, k: nat)
    requires k <= |items|
    ensures forall e :: e in Collected(items, errors, task, k) <==>
              e in errors || exists m :: 0 <= m < k && items[m] == e && Failing(e, task)
  {
    if k > 0 {
      CollectedHolds(items, errors, task, k - 1);
      forall e
        ensures e in Collected(items, errors, task, k) <==>
                  e in errors || exists m :: 0 <= m < k && items[m] == e && Failing(e, task)
      {
        if e in errors || exists m :: 0 <= m < k - 1 && items[m] == e && Failing(e, task) {
          assert e in Collected(items, errors, task, k - 1);
        }
      }
    }
  }

  function Codes(collected: seq<Item>, task: nat): set<Option<string>> {
    set e | e in collected && Same(e, task) :: Readable(e)
  }

  /** The items that fail, put behind the errors, say of the task just what both say of it. */
  lemma AllCollected(items: seq<Item>, errors: seq<Item>, task: nat)
    ensures Codes(Collected(items, errors, task, |items|), task) == Errors(items, errors, task)
  {
    var collected := Collected(items, errors, task, |items|);
    CollectedHolds(items, errors, task, |items|);
    forall e | e in collected && Same(e, task)
      ensures Readable(e) in Errors(items, errors, task)
    {}
    forall e | e in errors && Same(e, task)
      ensures Readable(e) in Codes(collected, task)
    {
      assert e in collected;
    }
    forall i | i in items && Failing(i, task)
      ensures Readable(i) in Codes(collected, task)
    {
      var m :| 0 <= m < |items| && items[m] == i;
      assert i in collected;
    }
  }

  /** An entry of either list that reports an error for the task. */
  predicate Reports(items: seq<Item>, errors: seq<Item>, task: nat, e: Item) {
    (e in errors && About(e, task)) || (e in items && Failing(e, task))
  }

  predicate AnyReport(items: seq<Item>, errors: seq<Item>, task: nat) {
    (exists e <- errors :: About(e, task)) || (exists i <- items :: Failing(i, task))
  }

  predicate Contradictory(items: seq<Item>, errors: seq<Item>, task: nat) {
    AnyReport(items, errors, task) && exists i <- items :: About(i, task) && i.status.Success?
  }

  /** The set of readable codes is one code exactly when every report for the task carries it, well formed. */
  lemma OneCode(items: seq<Item>, errors: seq<Item>, task: nat, code: string)
    ensures Errors(items, errors, task) == {Some(code)} <==>
              && AnyReport(items, errors, task)
              && forall e :: Reports(items, errors, task, e) ==> e.safe && e.code == Some(code)
  {
    var all := Errors(items, errors, task);
    AnyError(items, errors, task);
    forall e | Reports(items, errors, task, e)
      ensures Readable(e) in all
    {}
    if AnyReport(items, errors, task)
       && forall e :: Reports(items, errors, task, e) ==> e.safe && e.code == Some(code) {
      forall c | c in all
        ensures c == Some(code)
      {
        if e :| e in errors && Same(e, task) && Readable(e) == c {
          assert Reports(items, errors, task, e);
        } else {
          var i :| i in items && Failing(i, task) && Readable(i) == c;
          assert Reports(items, errors, task, i);
        }
      }
      assert all == {Some(code)};
    }
  }

  lemma OneCodes(items: seq<Item>, errors: seq<Item>, task: nat)
    ensures forall code: string :: Errors(items, errors, task) == {Some(code)} <==>
              && AnyReport(items, errors, task)
              && forall e :: Reports(items, errors, task, e) ==> e.safe && e.code == Some(code)
  {
    forall code: string
      ensures Errors(items, errors, task) == {Some(code)} <==>
                && AnyReport(items, errors, task)
                && forall e :: Reports(items, errors, task, e) ==> e.safe && e.code == Some(code)
    {
      OneCode(items, errors, task, code);
    }
  }

  /** All successes of the task refer to the image this one refers to. */
  predicate RefsAgree(items: seq<Item>, task: nat, item: Item) {
    forall i <- items :: About(i, task) && i.status.Success? ==> i.url == item.url && i.uuid == item.uuid
  }

  /** Whether the errors or a failing item speak of the task. */
  lemma AnyError(items: seq<Item>, errors: seq<Item>, task: nat)
    ensures Errors(items, errors, task) != {} <==>
              (exists e <- errors :: About(e, task)) || (exists i <- items :: Failing(i, task))
  {
    if e :| e in errors && Same(e, task) {
      assert Readable(e) in Errors(items, errors, task);
    } else if i :| i in items && Failing(i, task) {
      assert Readable(i) in Errors(items, errors, task);
    }
  }

  /** One pass over the items, putting those that fail behind the errors, and then one over the errors. */
  method ParseStatus(items: seq<Item>, errors: seq<Item>, task: nat) returns (answer: Answer)
    // an error and a success for the task
    ensures Contradictory(items, errors, task) ==> answer.Unknown?
    // otherwise the first item that reports progress or success decides
    ensures !Contradictory(items, errors, task) ==>
      var k := FirstConclusive(items, task);
      && (answer.InProgress? <==> k < |items| && items[k].status.Processing?)
      && (answer.Succeeded? <==> k < |items| && items[k].status.Success?)
      // its image reference is taken over exactly when all successes agree on it
      && (answer.Succeeded? ==>
            if RefsAgree(items, task, items[k]) then answer == Succeeded(items[k].url, items[k].uuid)
            else answer == Succeeded(None, None))
      // and without such an item the task has failed if an error names it, with a code if all those agree on it
      && (answer.Failed? <==> k == |items| && AnyReport(items, errors, task))
      && (answer.NotFound? <==> k == |items| && !AnyReport(items, errors, task))
      && forall code :: answer == Failed(Some(code)) <==>
           && k == |items| && AnyReport(items, errors, task)
           && forall e :: Reports(items, errors, task, e) ==> e.safe && e.code == Some(code)
  {
    hide Reports, Errors;
    AnyError(items, errors, task);
    OneCodes(items, errors, task);
    if AnyReport(items, errors, task) && AnySame(items, task, Success) { return Unknown; }
    var collected := errors;
    for k := 0 to |items|
      invariant forall m :: 0 <= m < k ==> !Conclusive(items[m], task)
      invariant collected == Collected(items, errors, task, k)
    {
      var item := items[k];
      if !Same(item, task) { continue; }
      if item.status.Processing? || item.status.Success? { assert FirstConclusive(items, task) == k; }
      if item.status.Processing? { return InProgress; }
      if item.status.Success? {
        var refs := set i | i in items && Same(i, task) && i.status.Success? :: (i.url, i.uuid);
        assert (item.url, item.uuid) in refs;
        assert forall i <- items :: Same(i, task) && i.status.Success? ==> (i.url, i.uuid) in refs;
        return if refs == {(item.url, item.uuid)} then Succeeded(item.url, item.uuid) else Succeeded(None, None);
      }
      if item.status.Failure? { collected := collected + [item]; }
    }
    AllCollected(items, errors, task);
    for k := 0 to |collected|
      invariant forall m :: 0 <= m < k ==> !Same(collected[m], task)
    {
      if !Same(collected[k], task) { continue; }
      var codes := set e | e in collected && Same(e, task) :: Readable(e);
      var code := Readable(collected[k]);
      assert code in codes && codes == Errors(items, errors, task);
      return Failed(if codes == {code} then code else None);
    }
    assert Codes(collected, task) == {};
    answer := NotFound;
  }
}

/** Reading the response to a submission. */
module SubmitEvidence {
  import opened Basics
  import opened TaskErrors

  datatype Outcome = Accepted | Rejected | Undecided
  datatype Reason =
    | AcceptedReason | NotAcceptedReason | FallbackReason | FailedReason | Auth | Balance | ClientError
    | ResponseUnclear | ResponseUnmatched | RateLimited | ServerError | UnexpectedStatus | InvalidResponse
    | MissingTask | TaskMismatch

  /** The objects under "data" and under "errors"; otherErrors: something else that is not empty stands there. */
  datatype Body = NotObject | Object(items: seq<Item>, errors: seq<Item>, otherErrors: bool)

  function ItemsOf(b: Body): seq<Item> { if b.Object? then b.items else [] }
  function ErrorsOf(b: Body): seq<Item> { if b.Object? then b.errors else [] }

  predicate ErrorsField(b: Body) { b.Object? && (b.errors != [] || b.otherErrors) }

  function SameErrors(b: Body, task: nat): set<ErrorKind> {
    set e | e in ErrorsOf(b) && Same(e, task) :: Classify(e.code)
  }

  /** All errors of the task of one kind, or a mixture: a person looks at it if a key was refused, else unclear. */
  function KindOf(kinds: set<ErrorKind>): Option<ErrorKind> {
    if exists k <- kinds :: kinds == {k} then
      var k :| k in kinds && kinds == {k};
      Some(k)
    else if AuthError in kinds then Some(AuthError)
    else if kinds != {} then Some(Unclear) else None
  }

  function ClassifyResponse(status: int, b: Body, task: nat): (Outcome, Reason) {
    var kinds := SameErrors(b, task);
    var kind := KindOf(kinds);
    if kinds != {} && (AnySame(ItemsOf(b), task, Processing) || AnySame(ItemsOf(b), task, Success)) then
      (Undecided, ResponseUnclear)
    else if kind == Some(NotAcceptedError) then (Rejected, NotAcceptedReason)
    else if kind == Some(GenerationFallback) then (Rejected, FallbackReason)
    else if kind == Some(GenerationFailed) then (Rejected, FailedReason)
    else if status == 401 || status == 403 || (kind == Some(AuthError) && status < 500) then (Rejected, Auth)
    else if 200 <= status < 300 then
      if b.NotObject? then (Undecided, InvalidResponse)
      else if ErrorsField(b) then (Undecided, if kinds != {} then ResponseUnclear else ResponseUnmatched)
      else if forall i <- b.items :: i.named.Nobody? then (Undecided, MissingTask)
      else if forall i <- b.items :: i.named != Exactly(task) then (Undecided, TaskMismatch)
      else (Accepted, AcceptedReason)
    else if status == 429 then (Undecided, RateLimited)
    else if status >= 500 then (Undecided, ServerError)
    else if status == 402 then (Rejected, Balance)
    else if 400 <= status < 500 && status != 408 && status != 409 then (Rejected, ClientError)
    else (Undecided, UnexpectedStatus)
  }

  predicate AllSameErrors(b: Body, task: nat, kind: ErrorKind) {
    && (exists e <- ErrorsOf(b) :: About(e, task))
    && forall e <- ErrorsOf(b) :: About(e, task) ==> Classify(e.code) == kind
  }

  /** Nothing in the response speaks for the task being worked on or done. */
  predicate NoProgress(b: Body, task: nat) {
    forall i <- ItemsOf(b) :: About(i, task) ==> !i.status.Processing? && !i.status.Success?
  }

  lemma KindOfAll(b: Body, task: nat, kind: ErrorKind)
    requires kind != AuthError && kind != Unclear
    ensures KindOf(SameErrors(b, task)) == Some(kind) <==> AllSameErrors(b, task, kind)
  {
    var kinds := SameErrors(b, task);
    if AllSameErrors(b, task, kind) {
      var e :| e in ErrorsOf(b) && Same(e, task);
      assert kind in kinds;
      assert kinds == {kind};
    }
    if KindOf(kinds) == Some(kind) {
      assert kinds == {kind};
      forall e <- ErrorsOf(b) | Same(e, task)
        ensures Classify(e.code) == kind
      {
        assert Classify(e.code) in kinds;
      }
    }
  }

  /** "Not accepted", and so another request, exactly when all errors about the task say so and nothing contradicts. */
  lemma NotAcceptedExactly(status: int, b: Body, task: nat)
    ensures ClassifyResponse(status, b, task).1.NotAcceptedReason? <==>
              AllSameErrors(b, task, NotAcceptedError) && NoProgress(b, task)
    ensures ClassifyResponse(status, b, task).1.FallbackReason? <==>
              AllSameErrors(b, task, GenerationFallback) && NoProgress(b, task)
    ensures !ClassifyResponse(status, b, task).1.FailedReason?
  {
    KindOfAll(b, task, NotAcceptedError);
    KindOfAll(b, task, GenerationFallback);
    KindOfAll(b, task, GenerationFailed);
    SomeSameError(b, task);
    hide KindOf, SameErrors;
    assert forall e: Item :: Classify(e.code) != GenerationFailed;
  }

  predicate NamesTask(b: Body, task: nat, code: string) {
    exists e <- ErrorsOf(b) :: About(e, task) && e.code == Some(code)
  }

  predicate AnyError(b: Body, task: nat) { exists e <- ErrorsOf(b) :: About(e, task) }

  /** The task's errors say one thing that settles the matter, and nothing speaks against it. */
  predicate ClearRejection(b: Body, task: nat) {
    && AnyError(b, task) && NoProgress(b, task)
    && (|| (forall e <- ErrorsOf(b) :: About(e, task) ==>
              e.code == Some("serviceOverloaded") || e.code == Some("inferenceRateLimitExceeded"))
        || (forall e <- ErrorsOf(b) :: About(e, task) ==> e.code == Some("timeoutProvider")))
  }

  /** An error about the task beside progress or a success. */
  predicate AtOdds(b: Body, task: nat) { AnyError(b, task) && !NoProgress(b, task) }

  /** Nothing in the body comes before the status. */
  predicate StatusDecides(b: Body, task: nat) { !AtOdds(b, task) && !ClearRejection(b, task) }

  lemma AuthKind(b: Body, task: nat)
    requires StatusDecides(b, task)
    ensures var kind := KindOf(SameErrors(b, task));
            && (kind == Some(AuthError) <==> NamesTask(b, task, "invalidApiKey"))
            && kind != Some(NotAcceptedError) && kind != Some(GenerationFallback) && kind != Some(GenerationFailed)
  {
    var kinds := SameErrors(b, task);
    KindOfAll(b, task, NotAcceptedError);
    KindOfAll(b, task, GenerationFallback);
    KindOfAll(b, task, GenerationFailed);
    if e :| e in ErrorsOf(b) && Same(e, task) && e.code == Some("invalidApiKey") {
      assert Classify(e.code) == AuthError && AuthError in kinds;
    }
  }

  /** A definite rejection, exactly on clear evidence about the task, a refused key, or a status that says so. */
  lemma RejectedExactly(status: int, b: Body, task: nat)
    ensures var r := ClassifyResponse(status, b, task);
            var refused := status == 401 || status == 403 || (NamesTask(b, task, "invalidApiKey") && status < 500);
            && (r.0.Rejected? <==>
                  || ClearRejection(b, task)
                  || (!AtOdds(b, task) && (refused || (400 <= status < 500 && status !in {408, 409, 429}))))
            && (r.1.Auth? <==> StatusDecides(b, task) && refused)
            && (r.1.Balance? <==> StatusDecides(b, task) && !refused && status == 402)
            && (r.1.ClientError? <==>
                  StatusDecides(b, task) && !refused && 400 <= status < 500 && status !in {402, 408, 409, 429})
            && (r.0.Rejected? <==>
                  r.1.NotAcceptedReason? || r.1.FallbackReason? || r.1.Auth? || r.1.Balance? || r.1.ClientError?)
            && (r.0.Accepted? <==> r.1.AcceptedReason?)
  {
    NotAcceptedExactly(status, b, task);
    ClearKinds(b, task);
    SomeSameError(b, task);
    if StatusDecides(b, task) { AuthKind(b, task); }
    hide KindOf, SameErrors;
  }

  lemma ClearKinds(b: Body, task: nat)
    ensures ClearRejection(b, task) <==>
              (AllSameErrors(b, task, NotAcceptedError) || AllSameErrors(b, task, GenerationFallback))
              && NoProgress(b, task)
  {}

  /** And otherwise the matter stays open, for a reason of its own. */
  lemma UndecidedExactly(status: int, b: Body, task: nat)
    ensures var r := ClassifyResponse(status, b, task);
            var refused := status == 401 || status == 403 || (NamesTask(b, task, "invalidApiKey") && status < 500);
            var open := StatusDecides(b, task) && !refused;
            var fine := open && 200 <= status < 300 && b.Object?;
            && (r.1.RateLimited? <==> open && status == 429)
            && (r.1.ServerError? <==> open && status >= 500)
            && (r.1.InvalidResponse? <==> open && 200 <= status < 300 && b.NotObject?)
            && (r.1.ResponseUnclear? <==> AtOdds(b, task) || (fine && AnyError(b, task)))
            && (r.1.ResponseUnmatched? <==> fine && !AnyError(b, task) && (b.errors != [] || b.otherErrors))
            && (fine && b.errors == [] && !b.otherErrors ==>
                  && (r.1.MissingTask? <==> forall i <- b.items :: i.named == Nobody)
                  && (r.1.TaskMismatch? <==>
                        (exists i <- b.items :: i.named != Nobody) && forall i <- b.items :: i.named != Exactly(task)))
            && (r.1.UnexpectedStatus? <==>
                  open && (status < 200 || 300 <= status < 400 || status == 408 || status == 409))
            && (r.0.Undecided? <==> !r.0.Rejected? && !r.0.Accepted?)
  {
    NotAcceptedExactly(status, b, task);
    ClearKinds(b, task);
    SomeSameError(b, task);
    if StatusDecides(b, task) { AuthKind(b, task); }
    hide KindOf, SameErrors;
  }

  lemma SomeSameError(b: Body, task: nat)
    ensures SameErrors(b, task) != {} <==> AnyError(b, task)
  {
    if e :| e in ErrorsOf(b) && Same(e, task) {
      assert Classify(e.code) in SameErrors(b, task);
    }
  }

  /** Accepted exactly on a success status with no error reported at all and the task named as it was sent. */
  lemma AcceptedExactly(status: int, b: Body, task: nat)
    ensures ClassifyResponse(status, b, task).0.Accepted? <==>
              && 200 <= status < 300 && b.Object? && !ErrorsField(b)
              && exists i <- b.items :: i.named == Exactly(task)
  {
    hide KindOf;
    SomeSameError(b, task);
    if b.Object? && !ErrorsField(b) {
      assert ErrorsOf(b) == [];
      assert KindOf({}) == None by { NoKind(); }
    }
  }

  lemma NoKind()
    ensures KindOf({}) == None
  {}
}
