/**
 Storing a job's result image under its one key: look, create only if absent, and when the answer leaves that open look
 again. Any number of workers may do this at once, and answers may get lost on the way back.
 */
module ImageStore {
  import opened Basics
  import opened Jobs

  type Bytes = seq<bv8>
  type Digest = nat

  /** An object with what its headers and its metadata claim about it. */
  datatype StoredObject =
    StoredObject(body: Bytes, length: nat, webp: bool, job: Option<int>, task: Option<TaskId>, sha: Option<Digest>)

  datatype Reason =
    | AccessDenied | CheckFailed | ExistingConflict | ExistingUnverified | DownloadFailed | InvalidImage
    | PutFailed | PutUnconfirmed

  datatype Stored = Stored(bytes: nat, sha: Digest, reused: bool)

  datatype Result<T> = Ok(value: T) | Err(reason: Reason)

  datatype GetOutcome = Found | Missing | Denied | Troubled
  datatype PutOutcome = Created | Exists | ConflictAnswer | NoAnswer | Refused

  /** The bucket at the job's key. Nobody overwrites or deletes there: every writer creates only if absent. */
  class Bucket {
    var stored: Option<StoredObject>
    ghost var gets: seq<GetOutcome>   // what was answered to the requests made here, oldest first
    ghost var puts: seq<PutOutcome>

    constructor ()
      ensures stored == None && gets == [] && puts == []
    {
      stored, gets, puts := None, [], [];
    }

    /** What the other writers and late requests may do in between. */
    method Meanwhile()
      modifies `stored
      ensures Kept(old(stored), stored)
    {}

    /** One GET; only an existing object can be found, and it is found as it is. */
    method Get() returns (outcome: GetOutcome, found: Option<StoredObject>)
      modifies `gets
      ensures gets == old(gets) + [outcome]
      ensures outcome.Found? ==> found.Some? && found == stored
      ensures outcome.Missing? ==> stored.None?
    {
      var lucky, denied := *, *;
      outcome, found := if denied then Denied else Troubled, None;
      if lucky { outcome, found := if stored.Some? then Found else Missing, stored; }
      gets := gets + [outcome];
    }

    /** One PUT with If-None-Match: the request may get lost, and so may the answer to one that took effect. */
    method PutIfAbsent(o: StoredObject) returns (outcome: PutOutcome)
      modifies `stored, `puts
      ensures puts == old(puts) + [outcome]
      ensures Kept(old(stored), stored) && (stored == old(stored) || stored == Some(o))
      ensures outcome.Created? ==> old(stored).None? && stored == Some(o)
      ensures outcome.Exists? ==> stored.Some?
      ensures outcome.Refused? || outcome.ConflictAnswer? ==> stored == old(stored)
    {
      var arrives, refused, conflict, answered := *, *, *, *;
      if refused {
        outcome := Refused;
      } else if !arrives {
        outcome := NoAnswer;
      } else if conflict {
        outcome := ConflictAnswer;
      } else if stored.Some? {
        outcome := if answered then Exists else NoAnswer;
      } else {
        stored := Some(o);
        outcome := if answered then Created else NoAnswer;
      }
      puts := puts + [outcome];
    }
  }

  predicate Kept(a: Option<StoredObject>, b: Option<StoredObject>) { a.Some? ==> b == a }

  /** The object that a success is about: this job's, this task's, whole, valid, and as its own metadata says. */
  predicate Genuine(o: StoredObject, job: int, task: TaskId, sha: Bytes -> Digest, valid: Bytes -> bool, max: nat) {
    && o.job == Some(job) && o.task == Some(task) && o.webp && o.length == |o.body| <= max
    && o.sha == Some(sha(o.body)) && valid(o.body)
  }

  predicate Describes(r: Stored, o: Option<StoredObject>, job: int, task: TaskId, sha: Bytes -> Digest,
                      valid: Bytes -> bool, max: nat)
  {
    o.Some? && Genuine(o.value, job, task, sha, valid, max) && r.bytes == |o.value.body| && r.sha == sha(o.value.body)
  }

  /** One attempt to create: created is success, refused is failure, and anything else is what a second look says. */
  predicate Tried(r: Result<Stored>, body: Bytes, puts: seq<PutOutcome>, puts': seq<PutOutcome>,
                  gets: seq<GetOutcome>, genuine: bool, same: bool)
  {
    && |puts'| == |puts| + 1 && puts'[..|puts|] == puts && gets != []
    && match puts'[|puts|]
       case Created => r.Ok? && r.value.bytes == |body| && !r.value.reused
       case Refused => r == Err(PutFailed)
       case _ =>
         && (gets[|gets| - 1].Missing? <==> r == Err(PutUnconfirmed))
         && (gets[|gets| - 1].Denied? <==> r == Err(AccessDenied))
         && (gets[|gets| - 1].Troubled? <==> r == Err(CheckFailed))
         // what stands there is reused if it is a result of this task, and is ours if it is the same
         && (gets[|gets| - 1].Found? ==> (r.Ok? <==> genuine) && (r.Ok? ==> r.value.reused == !same))
  }

  class ResultImages {
    const bucket: Bucket
    const sha: Bytes -> Digest
    const valid: Bytes -> bool
    const max: nat

    constructor (bucket: Bucket, sha: Bytes -> Digest, valid: Bytes -> bool, max: nat)
      ensures this.bucket == bucket && this.sha == sha && this.valid == valid && this.max == max
    {
      this.bucket, this.sha, this.valid, this.max := bucket, sha, valid, max;
    }

    /** None when there is no object; an object is accepted only if everything about it checks out. */
    method Existing(job: int, task: TaskId) returns (r: Result<Option<Stored>>)
      modifies bucket`stored, bucket`gets
      ensures Kept(old(bucket.stored), bucket.stored)
      // one look, and what is answered follows from what was seen
      ensures |bucket.gets| == |old(bucket.gets)| + 1 && bucket.gets[..|old(bucket.gets)|] == old(bucket.gets)
      ensures var seen := bucket.gets[|old(bucket.gets)|];
        && (seen.Missing? <==> r.Ok? && r.value.None?)
        && (seen.Denied? <==> r == Err(AccessDenied)) && (seen.Troubled? <==> r == Err(CheckFailed))
        && (seen.Found? ==>
              bucket.stored.Some?
              && (r.Ok? <==> Genuine(bucket.stored.value, job, task, sha, valid, max))
              && (r == Err(ExistingConflict) <==>
                    bucket.stored.value.job != Some(job) || bucket.stored.value.task != Some(task)))
      ensures r.Ok? && r.value.Some? ==>
        Describes(r.value.value, bucket.stored, job, task, sha, valid, max) && r.value.value.reused
      ensures r.Ok? && r.value.None? ==> bucket.stored.None?
      // and what is refused for itself is there, and belongs to somebody else, or does not check out
      ensures r == Err(ExistingConflict) ==>
        bucket.stored.Some? && (bucket.stored.value.job != Some(job) || bucket.stored.value.task != Some(task))
      ensures r == Err(ExistingUnverified) ==>
        && bucket.stored.Some? && bucket.stored.value.job == Some(job) && bucket.stored.value.task == Some(task)
        && !Genuine(bucket.stored.value, job, task, sha, valid, max)
      ensures r.Err? ==> r.reason in {AccessDenied, CheckFailed, ExistingConflict, ExistingUnverified}
    {
      bucket.Meanwhile();
      var outcome, found := bucket.Get();
      if outcome.Missing? { return Ok(None); }
      if outcome.Denied? { return Err(AccessDenied); }
      if outcome.Troubled? { return Err(CheckFailed); }
      var o := found.value;
      if o.job != Some(job) || o.task != Some(task) { return Err(ExistingConflict); }
      // a body over the limit comes back truncated
      if |o.body| > max || !o.webp || o.length != |o.body| || o.sha != Some(sha(o.body)) {
        return Err(ExistingUnverified);
      }
      if !valid(o.body) { return Err(ExistingUnverified); }
      r := Ok(Some(Stored(|o.body|, sha(o.body), true)));
    }

    /** download is what the provider's URL yields, never more than the limit. */
    method Store(job: int, task: TaskId, download: Option<Bytes>) returns (r: Result<Stored>)
      requires download.Some? ==> |download.value| <= max
      modifies bucket
      // the first look, and what each answer to it leads to
      ensures |bucket.gets| > |old(bucket.gets)|
      ensures var first := bucket.gets[|old(bucket.gets)|];
        && (first.Troubled? ==> r == Err(CheckFailed) && bucket.puts == old(bucket.puts))
        && (first.Found? ==>
              && bucket.puts == old(bucket.puts) && bucket.stored.Some?
              && (r.Ok? <==> Genuine(bucket.stored.value, job, task, sha, valid, max)) && (r.Ok? ==> r.value.reused))
        && (first.Missing? || first.Denied? ==>
              if download.None? then r == Err(DownloadFailed) && bucket.puts == old(bucket.puts)
              else if !valid(download.value) then r == Err(InvalidImage) && bucket.puts == old(bucket.puts)
              else
                var o := bucket.stored;
                Tried(r, download.value, old(bucket.puts), bucket.puts, bucket.gets,
                      o.Some? && Genuine(o.value, job, task, sha, valid, max),
                      o.Some? && sha(o.value.body) == sha(download.value)))
      // whatever stands at the key stays
      ensures Kept(old(bucket.stored), bucket.stored)
      // a success tells length and digest of the very object at the key
      ensures r.Ok? ==> Describes(r.value, bucket.stored, job, task, sha, valid, max)
      // an object of another job or task, or one that does not check out, is never accepted
      ensures old(bucket.stored).Some? && !Genuine(old(bucket.stored).value, job, task, sha, valid, max) ==> r.Err?
      ensures r.Ok? && !r.value.reused ==> download.Some? && sha(download.value) == r.value.sha
    {
      var existing := Existing(job, task);
      if existing.Err? && !existing.reason.AccessDenied? { return Err(existing.reason); }
      if existing.Ok? && existing.value.Some? { return Ok(existing.value.value); }
      if download.None? { return Err(DownloadFailed); }
      var body := download.value;
      if !valid(body) { return Err(InvalidImage); }
      var digest := sha(body);
      bucket.Meanwhile();
      var put := bucket.PutIfAbsent(StoredObject(body, |body|, true, Some(job), Some(task), Some(digest)));
      if put.Created? { return Ok(Stored(|body|, digest, false)); }
      if put.Refused? { return Err(PutFailed); }
      var confirmed := Existing(job, task);
      if confirmed.Err? { return Err(confirmed.reason); }
      if confirmed.value.None? { return Err(PutUnconfirmed); }
      var c := confirmed.value.value;
      r := Ok(Stored(c.bytes, c.sha, c.sha != digest));
    }
  }

  /** The states of the key over time, each a possible successor of the one before. */
  predicate History(states: seq<Option<StoredObject>>) {
    forall i :: 0 <= i < |states| - 1 ==> Kept(states[i], states[i + 1])
  }

  lemma {:induction false} KeptThroughout(states: seq<Option<StoredObject>>, i: nat, k: nat)
    requires History(states) && i <= k < |states|
    ensures Kept(states[i], states[k])
    decreases k - i
  {
    if i < k { KeptThroughout(states, i + 1, k); }
  }

  /** Over any history of the key there is one body at the most, and all successes ever reported agree on it. */
  lemma SuccessesAgree(states: seq<Option<StoredObject>>, i: nat, k: nat, a: Stored, b: Stored,
                       job: int, task: TaskId, sha: Bytes -> Digest, valid: Bytes -> bool, max: nat)
    requires History(states) && i <= k < |states|
    requires Describes(a, states[i], job, task, sha, valid, max) && Describes(b, states[k], job, task, sha, valid, max)
    ensures states[i] == states[k] && a.bytes == b.bytes && a.sha == b.sha
  {
    KeptThroughout(states, i, k);
  }
}
