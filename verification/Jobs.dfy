/** Shared vocabulary: optional values and the bounded sequence facts the protocol modules use. */
module Basics {

  datatype Option<+T> = None | Some(value: T)

  /** SQL's COALESCE(column, v): a value already there wins over the new one. */
  function Coalesce<T>(column: Option<T>, v: Option<T>): Option<T> {
    if column.Some? then column else v
  }

  predicate Distinct<T(==)>(s: seq<T>) {
    forall i, j :: 0 <= i < j < |s| ==> s[i] != s[j]
  }

  /** Pigeonhole: distinct numbers out of 1..n are at most n many. */
  lemma {:induction false} DistinctBounded(s: seq<int>, n: nat)
    requires Distinct(s)
    requires forall i :: 0 <= i < |s| ==> 1 <= s[i] <= n
    ensures |s| <= n
  {
    if s == [] {
    } else if i :| 0 <= i < |s| && s[i] == n {
      var rest := s[..i] + s[i + 1..];
      forall a, b | 0 <= a < b < |rest|
        ensures rest[a] != rest[b]
      {
        assert rest[a] == s[if a < i then a else a + 1];
        assert rest[b] == s[if b < i then b else b + 1];
      }
      forall a | 0 <= a < |rest|
        ensures 1 <= rest[a] <= n - 1
      {
        assert rest[a] == s[if a < i then a else a + 1];
        assert rest[a] != s[i];
      }
      DistinctBounded(rest, n - 1);
    } else {
      assert 1 <= s[0] <= n;
      DistinctBounded(s, n - 1);
    }
  }

  /** There is always a token or task id that was not drawn yet. */
  lemma {:induction false} Undrawn(drawn: set<nat>) returns (unused: nat)
    ensures forall n <- drawn :: n < unused
  {
    if drawn == {} {
      unused := 0;
    } else {
      var n :| n in drawn;
      var above := Undrawn(drawn - {n});
      assert forall m <- drawn :: m == n || m in drawn - {n};
      unused := if above <= n then n + 1 else above;
    }
  }
}

/** One row of the asynchronous job table and its submission attempts, with the limits the code uses. */
module Jobs {
  import opened Basics

  /** A database instant, in microseconds. */
  type Time = int
  type Token = nat
  type TaskId = nat
  type Key = string

  const SECOND: int := 1_000_000
  const MAX_LEASE := 3600 * SECOND
  const S3_CHECK_LIMIT := 2
  const LLM_COMMENT_ATTEMPT_LIMIT := 2
  const LLM_TITLE_ATTEMPT_LIMIT := 2
  const LLM_GENERATION_LIMIT := LLM_COMMENT_ATTEMPT_LIMIT + LLM_TITLE_ATTEMPT_LIMIT
  const FALLBACK_LIMIT := 1
  const PRUNA_SUBMIT_LIMIT := 4
  const RESULT_MESSAGE_LIMIT := 3
  const SUBMISSION_REJECTED_CODE := "FITTING_SUBMISSION_REJECTED"
  const SUBMISSION_REJECTED_MESSAGE := "이미지 생성 요청이 접수되지 않았습니다."

  datatype Status = Received | WaitingPruna | Postprocessing | FallbackRunning | Completed | Failed
  datatype NextAction = SubmitPruna | Postprocess | RunFallback | PublishResult
  datatype MessageStatus = Pending | Published | RetryExhausted

  datatype Payload =
    | CompletedResult(jobId: int, imageKey: Key, title: string, comment: string)
    | FailedResult(jobId: int, code: string, message: string)

  /** Token and expiry are always written together, and cleared together. */
  datatype Lease = Lease(token: Token, until: Time)
  datatype Verified = Verified(key: Key, at: Time)
  datatype AuthHold = AuthHold(task: TaskId, reason: string, at: Time)

  datatype Job = Job(
    id: int,
    fingerprint: string,
    taskUuid: Option<TaskId>,
    asyncImageKey: Option<Key>,
    resultImageKey: Option<Key>,
    status: Status,
    updatedAt: Time,
    submitStartedAt: Option<Time>,
    acceptedAt: Option<Time>,
    nextAction: Option<NextAction>,
    verified: Option<Verified>,
    payload: Option<Payload>,
    messageStatus: MessageStatus,
    messageAttempts: nat,
    llmAttempts: nat,
    fallbackAttempts: nat,
    s3Attempts: nat,
    lease: Option<Lease>,
    fallbackTask: Option<TaskId>,
    fallbackStartedAt: Option<Time>,
    fallbackKey: Option<Key>,
    authHold: Option<AuthHold>,
    imageUrl: Option<string>,
    imageUuid: Option<nat>,
    aiStores: bool,
    notAcceptedAt: Option<Time>,
    retryAt: Option<Time>)

  datatype Source = SubmitResponse | Webhook | StatusQuery
  datatype NotAccepted = NotAccepted(code: string, source: Source, at: Time)
  datatype Conflict = Conflict(reason: string, at: Time)

  /** The range the attempts table's CHECK constraint allows. */
  type AttemptNo = n: int | 1 <= n <= PRUNA_SUBMIT_LIMIT witness 1

  datatype Attempt = Attempt(
    no: AttemptNo,
    task: TaskId,
    startedAt: Time,
    notAccepted: Option<NotAccepted>,
    nextAt: Option<Time>,
    conflict: Option<Conflict>)

  /** One job's row and its rows in the attempts table, oldest first. */
  datatype Table = Table(job: Job, attempts: seq<Attempt>)

  predicate Terminal(j: Job) { (j.status.Completed? || j.status.Failed?) }

  predicate Settled(j: Job) { Terminal(j) && j.messageStatus == Published }

  /** The lease guard every worker method carries. */
  predicate LeaseValid(j: Job, token: Token, now: Time) {
    j.lease.Some? && j.lease.value.token == token && now < j.lease.value.until
  }

  predicate LeaseFree(j: Job, now: Time) {
    j.lease.None? || j.lease.value.until <= now
  }

  /** The characters that Python's str.strip takes off. */
  predicate White(c: char) {
    || '\U{9}' <= c <= '\U{d}' || '\U{1c}' <= c <= ' ' || c == '\U{85}' || c == '\U{a0}' || c == '\U{1680}'
    || '\U{2000}' <= c <= '\U{200a}' || c == '\U{2028}' || c == '\U{2029}' || c == '\U{202f}' || c == '\U{205f}'
    || c == '\U{3000}'
  }

  /** Those are: tab, the line ends, the separators of Unicode, and the spaces of every width. */
  lemma WhiteExactly(c: char)
    ensures White(c) <==>
              c in "\U{9}\U{a}\U{b}\U{c}\U{d}\U{1c}\U{1d}\U{1e}\U{1f}\U{20}\U{85}\U{a0}\U{1680}"
                 + "\U{2000}\U{2001}\U{2002}\U{2003}\U{2004}\U{2005}\U{2006}\U{2007}\U{2008}\U{2009}\U{200a}"
                 + "\U{2028}\U{2029}\U{202f}\U{205f}\U{3000}"
  {}

  predicate Blank(s: string) { forall c <- s :: White(c) }

  // ----- object keys -----

  const MAX_KEY_BYTES := 1024

  function Utf8Length(s: string): nat {
    if s == "" then 0
    else (if s[0] < '\U{80}' then 1 else if s[0] < '\U{800}' then 2 else if s[0] < '\U{10000}' then 3 else 4)
         + Utf8Length(s[1..])
  }

  /** What fits into n bytes of UTF-8: the bits its lead byte has left for the character, and six in each other. */
  function Utf8Capacity(n: nat): nat
    requires 1 <= n <= 4
  {
    match n
    case 1 => 128
    case 2 => 32 * 64
    case 3 => 16 * 64 * 64
    case 4 => 8 * 64 * 64 * 64
  }

  /** Every character takes as few bytes as it fits into. */
  lemma Utf8IsShortest(c: char)
    ensures var n := Utf8Length([c]);
            1 <= n <= 4 && c as int < Utf8Capacity(n) && (n > 1 ==> Utf8Capacity(n - 1) <= c as int)
  {
    assert [c][1..] == "" && Utf8Length("") == 0;
  }

  lemma {:induction false} Utf8LengthAdds(a: string, b: string)
    ensures Utf8Length(a + b) == Utf8Length(a) + Utf8Length(b)
  {
    if a == "" {
      assert a + b == b;
    } else {
      assert (a + b)[1..] == a[1..] + b;
      Utf8LengthAdds(a[1..], b);
    }
  }

  /** key.split("/"). */
  function PathParts(key: string): (parts: seq<string>)
    ensures parts != []
  {
    if key == "" then [""]
    else
      var rest := PathParts(key[1..]);
      if key[0] == '/' then [""] + rest else [[key[0]] + rest[0]] + rest[1..]
  }

  function Joined(parts: seq<string>): string {
    if parts == [] then "" else if |parts| == 1 then parts[0] else parts[0] + "/" + Joined(parts[1..])
  }

  /** The parts have no slash in them, and joined by slashes they are the key again. */
  lemma {:induction false} PartsJoin(key: string)
    ensures Joined(PathParts(key)) == key && forall part <- PathParts(key) :: '/' !in part
  {
    if key != "" {
      var rest := PathParts(key[1..]);
      PartsJoin(key[1..]);
      assert key == [key[0]] + key[1..];
      if key[0] == '/' {
        assert ([""] + rest)[1..] == rest;
      } else {
        assert ([[key[0]] + rest[0]] + rest[1..])[1..] == rest[1..];
      }
    }
  }

  /** A relative key inside the bucket: no URL, no outer white space, no control character, no empty or dotted part. */
  predicate ValidKey(key: string) {
    && key != "" && !White(key[0]) && !White(key[|key| - 1])
    && Utf8Length(key) <= MAX_KEY_BYTES
    && (forall c <- key :: ' ' <= c && c != '\U{7f}')
    && forall part <- PathParts(key) :: part != "" && part != "." && part != ".."
  }

  /** A key is refused exactly for one of these: nothing in it, white space at an end, more than 1024 bytes, a control
      character, or an empty or dotted part. */
  lemma {:induction false} KeyRefusedExactly(key: string, parts: seq<string>)
    requires parts == PathParts(key)
    ensures !ValidKey(key) <==>
              || |key| == 0
              || White(key[0]) || White(key[|key| - 1])
              || Utf8Length(key) > 1024
              || (exists c <- key :: c as int < 32 || c as int == 127)
              || exists part <- parts :: part == "" || part == "." || part == ".."
  {
    hide White, Utf8Length;
  }

  lemma PlainKey()
    ensures ValidKey("k")
  {
    assert "k"[1..] == "" && PathParts("") == [""];
    assert ["k"[0]] + "" == "k";
    assert PathParts("k") == ["k"];
    assert Utf8Length("") == 0 && Utf8Length("k") == 1;
  }

  /** What the result format demands of the fields of a result. */
  predicate WellFormed(p: Payload) {
    match p
    case CompletedResult(_, key, title, comment) => ValidKey(key) && !Blank(title) && !Blank(comment)
    case FailedResult(_, code, message) => !Blank(code) && !Blank(message)
  }

  function StatusOf(p: Payload): Status {
    if p.CompletedResult? then Completed else Failed
  }

  /** The image key a row keeps next to this result. */
  function ImageKeyOf(p: Payload): Option<Key> {
    if p.CompletedResult? then Some(p.imageKey) else None
  }

  function NewJob(id: int, fingerprint: string, now: Time): Job {
    Job(id, fingerprint, None, None, None, Received, now, None, None, Some(SubmitPruna), None, None,
        Pending, 0, 0, 0, 0, None, None, None, None, None, None, None, false, None, None)
  }
}
