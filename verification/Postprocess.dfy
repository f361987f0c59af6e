/** The handler of a finished generation: find the image, or fall back; write title and comment; store the result. */
module Postprocess {
  import opened Basics
  import opened Jobs
  import opened Transitions
  import opened RowInvariant
  import opened Repository
  import opened Interference
  import Budgets
  import LeaseRuns

  const TITLE_MAX_LENGTH := 100
  const BUNDLE_SIZE := 3
  const FALLBACK_TITLE := "가상 피팅 결과"
  const FALLBACK_COMMENT := "선택하신 상품으로 완성한 가상 피팅 결과입니다."

  // ----- text -----

  datatype Text = Default | Generated(text: string)

  lemma BlankTail(s: string)
    requires s != ""
    ensures Blank(s) <==> White(s[0]) && Blank(s[1..])
  {
    assert s[0] in s;
    assert forall c <- s :: c == s[0] || c in s[1..];
    assert forall c <- s[1..] :: c in s;
  }

  function StripLeft(s: string): (r: string)
    ensures |r| <= |s| && (r != "" ==> !White(r[0])) && (Blank(s) <==> r == "")
    ensures r == s[|s| - |r|..] && forall i :: 0 <= i < |s| - |r| ==> White(s[i])
  {
    if s == "" then ""
    else
      BlankTail(s);
      if White(s[0]) then StripLeft(s[1..]) else s
  }

  function StripRight(s: string): (r: string)
    requires s != "" ==> !White(s[0])
    ensures |r| <= |s| && (r == "" <==> s == "") && (r != "" ==> r[0] == s[0] && !White(r[|r| - 1]))
    ensures r == s[..|r|] && forall i :: |r| <= i < |s| ==> White(s[i])
  {
    if s != "" && White(s[|s| - 1]) then StripRight(s[..|s| - 1]) else s
  }

  function Strip(s: string): (r: string)
    ensures |r| <= |s|
    ensures Blank(s) <==> r == ""
    ensures r != "" ==> !White(r[0]) && !White(r[|r| - 1]) && !Blank(r)
  {
    var r := StripRight(StripLeft(s));
    assert r != "" ==> r[0] in r;
    r
  }

  function TitleText(t: Text): string { if t.Default? then FALLBACK_TITLE else t.text }
  function CommentText(t: Text): string { if t.Default? then FALLBACK_COMMENT else t.text }

  /** What may be stored as a generated text: stripped, and for a title not too long. */
  predicate Storable(t: Text, limit: Option<nat>) {
    t.Generated? ==> !Blank(t.text) && 1 <= |t.text| && (limit.Some? ==> |t.text| <= limit.value)
  }

  /** Stripping takes off white space at both ends and nothing else. */
  lemma StripIsMiddle(s: string)
    ensures exists a, b :: 0 <= a <= b <= |s| && Strip(s) == s[a..b]
              && (forall i :: 0 <= i < a || b <= i < |s| ==> White(s[i]))
  {
    var left := StripLeft(s);
    var a := |s| - |left|;
    var b := a + |Strip(s)|;
    assert left == s[a..];
    assert Strip(s) == s[a..b];
    forall i | b <= i < |s|
      ensures White(s[i])
    {
      assert s[i] == left[i - a];
    }
  }

  // ----- outside the database -----

  /** The requests that left the process, with the claim each was made under and what came back. */
  datatype HeadCall = HeadCall(bundle: nat, key: Key, answer: S3State)
  datatype StoreCall = StoreCall(key: Key, ok: bool)
  /** about: the comment a title is asked for; None in a request for a comment. */
  datatype TextCall = TextCall(claim: nat, about: Option<string>, answer: Option<string>)
  datatype TryOnAnswer = Image | BalanceGone | AuthRefused | Rejected | Unknown
  datatype TryOnCall = TryOnCall(claim: nat, task: TaskId, answer: TryOnAnswer)

  /** The worker's surroundings: everything here may answer anything, each time, and every request is on the log. */
  class Surroundings {
    ghost var heads: seq<HeadCall>
    ghost var stores: seq<StoreCall>
    ghost var texts: seq<TextCall>
    ghost var tryOns: seq<TryOnCall>
    ghost var halts: nat  // how often the work was told to stop, or a URL could not be signed
    ghost var urls: nat   // how many URLs were to be signed

    constructor ()
      ensures heads == [] && stores == [] && texts == [] && tryOns == [] && halts == 0 && urls == 0
    {
      heads, stores, texts, tryOns, halts, urls := [], [], [], [], 0, 0;
    }

    /** No stop requested, and lease and message visibility still extended. */
    method MayContinue() returns (yes: bool)
      modifies `halts
      ensures halts == old(halts) + if yes then 0 else 1
    {
      yes := *;
      if !yes { halts := halts + 1; }
    }

    method SignUrl() returns (ok: bool)
      modifies `halts, `urls
      ensures halts == old(halts) + if ok then 0 else 1
      ensures urls == old(urls) + 1
    {
      ok, urls := *, urls + 1;
      if !ok { halts := halts + 1; }
    }

    method Head(ghost bundle: nat, key: Key) returns (s: S3State)
      modifies `heads
      ensures heads == old(heads) + [HeadCall(bundle, key, s)]
    {
      s := *;
      heads := heads + [HeadCall(bundle, key, s)];
    }

    /** The image bytes are at their key afterwards, or it is not known. */
    method StoreObject(key: Key) returns (ok: bool)
      modifies `stores
      ensures stores == old(stores) + [StoreCall(key, ok)]
    {
      ok := *;
      stores := stores + [StoreCall(key, ok)];
    }

    /** None stands for a provider error. */
    method GenerateComment(ghost claim: nat) returns (text: Option<string>)
      modifies `texts
      ensures texts == old(texts) + [TextCall(claim, None, text)]
    {
      text := *;
      texts := texts + [TextCall(claim, None, text)];
    }

    method GenerateTitle(ghost claim: nat, comment: string) returns (text: Option<string>)
      modifies `texts
      ensures texts == old(texts) + [TextCall(claim, Some(comment), text)]
    {
      text := *;
      texts := texts + [TextCall(claim, Some(comment), text)];
    }

    /** The synchronous generation; it may have reached the provider whatever it answers. */
    method TryOn(ghost claim: nat, task: TaskId) returns (answer: TryOnAnswer)
      modifies `tryOns
      ensures tryOns == old(tryOns) + [TryOnCall(claim, task, answer)]
    {
      answer := *;
      tryOns := tryOns + [TryOnCall(claim, task, answer)];
    }
  }

  datatype Outcome = Proceed | Deferred | DoneAlready | MovedToFallback | ResultSaved

  datatype BundleEnd = Found | Interrupted | NeedsOperator | Ended

  predicate Open(s: S3State) { s.NotFound? || s.TransientError? }

  /** How the answers of a bundle make it end: at the first that settles the matter, after all three, or in between. */
  predicate EndsAs(seen: seq<S3State>, end: BundleEnd) {
    && |seen| <= BUNDLE_SIZE && (forall i :: 0 <= i < |seen| - 1 ==> Open(seen[i]))
    && match end
       case Found => seen != [] && seen[|seen| - 1].Exists?
       case NeedsOperator => seen != [] && (seen[|seen| - 1].AccessDenied? || seen[|seen| - 1].S3Error?)
       case Ended => |seen| == BUNDLE_SIZE && Open(seen[BUNDLE_SIZE - 1])
       case Interrupted => |seen| < BUNDLE_SIZE && (seen != [] ==> Open(seen[|seen| - 1]))
  }

  /** The last answer says that the object store has to be looked at, or all three leave it open whether it is there. */
  predicate Unclear(bundle: seq<S3State>) {
    bundle != [] && (bundle[|bundle| - 1].AccessDenied? || bundle[|bundle| - 1].S3Error?
                     || (|bundle| == BUNDLE_SIZE && bundle[|bundle| - 1].TransientError?))
  }

  /** All HEADs of a bundle were made, and the last one found the object missing. */
  predicate EndedNotFound(bundle: seq<S3State>) {
    EndsAs(bundle, Ended) && bundle[BUNDLE_SIZE - 1].NotFound?
  }

  /** The planned key; a row without one is never looked for. */
  function KeyOr(key: Option<Key>): Key { if key.Some? then key.value else "" }

  /** The log entries of one bundle. */
  function Requests(key: Key, bundle: nat, seen: seq<S3State>): seq<HeadCall> {
    seq(|seen|, i requires 0 <= i < |seen| => HeadCall(bundle, key, seen[i]))
  }

  /** The log entries of several bundles, each under its own number. */
  function AllRequests(key: Key, numbers: seq<nat>, bundles: seq<seq<S3State>>): seq<HeadCall>
    requires |numbers| == |bundles|
  {
    if bundles == [] then []
    else
      var n := |bundles| - 1;
      AllRequests(key, numbers[..n], bundles[..n]) + Requests(key, numbers[n], bundles[n])
  }

  lemma OneMoreBundle(key: Key, numbers: seq<nat>, bundles: seq<seq<S3State>>, number: nat, seen: seq<S3State>)
    requires |numbers| == |bundles|
    ensures AllRequests(key, numbers + [number], bundles + [seen])
            == AllRequests(key, numbers, bundles) + Requests(key, number, seen)
  {
    assert (numbers + [number])[..|numbers|] == numbers && (bundles + [seen])[..|bundles|] == bundles;
  }

  class PostprocessHandler {
    const state: AsyncJobStateRepository
    const outside: Surroundings
    ghost var bundleClaims: seq<nat>  // the numbers its applied claims got, in order
    ghost var textClaims: seq<nat>
    ghost var misses: nat  // how often the database refused it, or showed that the job is no longer its own

    constructor (state: AsyncJobStateRepository, outside: Surroundings)
      ensures this.state == state && this.outside == outside && bundleClaims == [] && textClaims == [] && misses == 0
    {
      this.state, this.outside := state, outside;
      bundleClaims, textClaims, misses := [], [], 0;
    }

    /** What a later row still says of an earlier one. */
    lemma LaterKeeps(t: Table, t': Table)
      requires Later(t, t')
      ensures Kept(t.job.verified, t'.job.verified) && Kept(t.job.fallbackKey, t'.job.fallbackKey)
      ensures t.job.s3Attempts <= t'.job.s3Attempts <= S3_CHECK_LIMIT
      ensures t.job.llmAttempts <= t'.job.llmAttempts <= LLM_GENERATION_LIMIT
      ensures t'.job.id == t.job.id
    {}

    // ----- the image -----

    method ClaimBundle(token: Token) returns (claim: StateChange)
      requires state.db.table.Some? && Inv(state.db.table.value)
      modifies state.db`table, state.db`clock, `bundleClaims, `misses
      ensures state.db.table.Some? && Later(old(state.db.table.value), state.db.table.value)
      ensures misses == old(misses) + if claim.applied || claim.reason == AlreadyThere then 0 else 1
      ensures OneCall(old(state.db.table.value), StageCall(token, ClaimS3Check), state.db.table.value, state.db.clock,
                      state.db.horizon, claim.applied)
      ensures claim.applied ==>
        && claim.job == Some(state.db.table.value.job)
        && old(state.db.table.value.job.s3Attempts) < claim.job.value.s3Attempts
        && bundleClaims == old(bundleClaims) + [claim.job.value.s3Attempts]
      ensures !claim.applied ==> bundleClaims == old(bundleClaims)
      ensures claim.reason == AlreadyThere ==>
        !claim.applied && claim.job == Some(state.db.table.value.job) && claim.job.value.verified.Some?
    {
      hide Inv, Evolves, Step, Applies;
      ghost var t := state.db.table.value;
      Meanwhile(state.db);
      ghost var t1 := state.db.table.value;
      LaterStep(t, t1, StageCall(token, ClaimS3Check), state.db.clock, state.db.horizon);
      LaterKeeps(t, t1);
      Budgets.StepCounts(Budgets.S3Bundle, StageCall(token, ClaimS3Check), t1, state.db.clock, state.db.horizon);
      claim := state.ClaimS3CheckAttempt(token);
      if claim.applied { bundleClaims := bundleClaims + [claim.job.value.s3Attempts]; }
      if !claim.applied && claim.reason != AlreadyThere { misses := misses + 1; }
    }

    /** The key the row ends up recording, whoever recorded it. */
    method RecordImage(token: Token, key: Key) returns (recorded: Option<Key>, ghost applied: bool)
      requires state.db.table.Some? && Inv(state.db.table.value)
      modifies state.db`table, state.db`clock, `misses
      ensures state.db.table.Some? && Later(old(state.db.table.value), state.db.table.value)
      ensures OneCall(old(state.db.table.value), StageCall(token, RecordVerified(key)), state.db.table.value,
                      state.db.clock, state.db.horizon, applied)
      ensures misses == old(misses) + if recorded.Some? then 0 else 1
      ensures applied ==> recorded == Some(key)
      ensures recorded.Some? ==> var v := state.db.table.value.job.verified; v.Some? && v.value.key == recorded.value
      // another worker's record is good too, as long as the lease is ours
      ensures recorded.None? && ValidKey(key) ==>
        var j := state.db.table.value.job; j.verified.None? || !LeaseValid(j, token, state.db.clock)
    {
      ghost var t := state.db.table.value;
      Meanwhile(state.db);
      LaterStep(t, state.db.table.value, StageCall(token, RecordVerified(key)), state.db.clock, state.db.horizon);
      RecordSets(state.db.table.value, token, key, state.db.clock, state.db.horizon);
      hide Inv, Evolves, Step, Applies;
      var change := state.RecordImageVerified(token, key);
      applied := change.applied;
      if change.applied { return Some(key), applied; }
      if change.reason == AlreadyThere { return Some(change.job.value.verified.value.key), applied; }
      recorded := None;
      misses := misses + 1;
    }

    lemma RecordSets(t: Table, token: Token, key: Key, now: Time, horizon: Time)
      requires Inv(t)
      ensures var c := StageCall(token, RecordVerified(key));
              if Applies(c, t, now, horizon) then Step(c, t, now, horizon).job.verified == Some(Verified(key, now))
              else Step(c, t, now, horizon) == t
      ensures Terminal(t.job) ==> !LeaseValid(t.job, token, now)
    {}

    method EnterFallback(token: Token) returns (moved: bool)
      requires state.db.table.Some? && Inv(state.db.table.value)
      modifies state.db`table, state.db`clock, `misses
      ensures state.db.table.Some? && Later(old(state.db.table.value), state.db.table.value)
      ensures OneCall(old(state.db.table.value), StageCall(token, MoveToFallback(NotFound)), state.db.table.value,
                      state.db.clock, state.db.horizon, moved)
      ensures misses == old(misses) + if moved then 0 else 1
      ensures moved ==> At(state.db.table.value.job, FallbackRunning, RunFallback)
    {
      ghost var t := state.db.table.value;
      Meanwhile(state.db);
      LaterStep(t, state.db.table.value, StageCall(token, MoveToFallback(NotFound)), state.db.clock, state.db.horizon);
      MoveSets(state.db.table.value, token, state.db.clock, state.db.horizon);
      hide Inv, Evolves, Step, Applies;
      var change := state.MoveJobToFallback(token, NotFound);
      moved := change.applied;
      if !moved { misses := misses + 1; }
    }

    lemma MoveSets(t: Table, token: Token, now: Time, horizon: Time)
      ensures var c := StageCall(token, MoveToFallback(NotFound));
              Applies(c, t, now, horizon) ==> At(Step(c, t, now, horizon).job, FallbackRunning, RunFallback)
    {}

    /** One bundle of HEAD requests, stopped early by an answer that settles the matter. */
    method RunBundle(ghost number: nat, key: Key) returns (seen: seq<S3State>, end: BundleEnd)
      requires state.db.table.Some? && Inv(state.db.table.value)
      modifies state.db`table, state.db`clock, outside`heads, outside`halts
      ensures state.db.table.Some? && Later(old(state.db.table.value), state.db.table.value)
      ensures outside.heads == old(outside.heads) + Requests(key, number, seen) && EndsAs(seen, end)
      ensures outside.halts == old(outside.halts) + if end.Interrupted? then 1 else 0
    {
      hide Inv, Evolves;
      ghost var t, log := state.db.table.value, outside.heads;
      LaterReflexive(t);
      seen := [];
      while |seen| < BUNDLE_SIZE
        invariant state.db.table.Some? && Later(t, state.db.table.value)
        invariant |seen| <= BUNDLE_SIZE && forall i :: 0 <= i < |seen| ==> Open(seen[i])
        invariant outside.heads == log + Requests(key, number, seen) && outside.halts == old(outside.halts)
      {
        ghost var before := state.db.table.value;
        Meanwhile(state.db);
        LaterTransitive(t, before, state.db.table.value);
        var go := outside.MayContinue();
        if !go { return seen, Interrupted; }
        var head := outside.Head(number, key);
        assert Requests(key, number, seen + [head]) == Requests(key, number, seen) + [HeadCall(number, key, head)];
        seen := seen + [head];
        if head.Exists? { return seen, Found; }
        if head.AccessDenied? || head.S3Error? { return seen, NeedsOperator; }
      }
      end := Ended;
    }

    /** What a bundle's end leads to; again asks for another bundle. */
    method Conclude(token: Token, key: Key, number: nat, seen: seq<S3State>, end: BundleEnd)
      returns (verified: Option<Key>, outcome: Outcome, again: bool)
      requires state.db.table.Some? && Inv(state.db.table.value) && EndsAs(seen, end)
      modifies state.db`table, state.db`clock, outside`halts, `misses
      ensures state.db.table.Some? && Later(old(state.db.table.value), state.db.table.value)
      ensures again <==> end.Ended? && number < S3_CHECK_LIMIT
      ensures verified.Some? <==> outcome.Proceed?
      ensures verified.Some? ==>
        var v := state.db.table.value.job.verified; v.Some? && v.value.key == verified.value
      ensures outcome.Proceed? || outcome.Deferred? || outcome.MovedToFallback?
      ensures outcome.Proceed? ==> end.Found?
      ensures outcome.MovedToFallback? ==>
        EndedNotFound(seen) && number >= S3_CHECK_LIMIT && At(state.db.table.value.job, FallbackRunning, RunFallback)
      // a clear answer is acted on, unless something stops that
      ensures verified.Some? || again ==> outside.halts == old(outside.halts) && misses == old(misses)
      ensures old(outside.halts) <= outside.halts && old(misses) <= misses
      ensures outside.halts == old(outside.halts) && misses == old(misses) ==>
        && (end.Found? ==> outcome.Proceed?)
        && (EndedNotFound(seen) && end.Ended? && !again ==> outcome.MovedToFallback?)
    {
      LaterReflexive(state.db.table.value);
      hide Inv, Evolves, OneCall;
      verified, outcome, again := None, Deferred, end.Ended? && number < 2;
      if again || end.Interrupted? || end.NeedsOperator? { return; }
      if end.Ended? && !seen[|seen| - 1].NotFound? { return; }
      var go := outside.MayContinue();
      if !go { return; }
      if end.Found? {
        ghost var applied;
        verified, applied := RecordImage(token, key);
        outcome := if verified.Some? then Proceed else Deferred;
      } else {
        var moved := EnterFallback(token);
        outcome := if moved then MovedToFallback else Deferred;
      }
    }

    /** A claimed bundle and what it leads to. */
    method Look(token: Token, key: Key, number: nat)
      returns (verified: Option<Key>, outcome: Outcome, seen: seq<S3State>, again: bool)
      requires state.db.table.Some? && Inv(state.db.table.value)
      modifies state.db`table, state.db`clock, outside`heads, outside`halts, `misses
      ensures state.db.table.Some? && Later(old(state.db.table.value), state.db.table.value)
      ensures outside.heads == old(outside.heads) + Requests(key, number, seen) && exists end :: EndsAs(seen, end)
      ensures verified.Some? || again ==> outside.halts == old(outside.halts) && misses == old(misses)
      ensures old(outside.halts) <= outside.halts && old(misses) <= misses
      ensures outcome.Deferred? && !again ==>
        old(outside.halts) < outside.halts || old(misses) < misses || Unclear(seen)
      ensures verified.Some? <==> outcome.Proceed?
      ensures verified.Some? ==>
        var v := state.db.table.value.job.verified; v.Some? && v.value.key == verified.value
      ensures outcome.Proceed? || outcome.Deferred? || outcome.MovedToFallback?
      ensures again ==> number < S3_CHECK_LIMIT
      ensures outcome.MovedToFallback? ==>
        EndedNotFound(seen) && number >= S3_CHECK_LIMIT && At(state.db.table.value.job, FallbackRunning, RunFallback)
    {
      hide Inv, Evolves;
      ghost var t := state.db.table.value;
      var end;
      seen, end := RunBundle(number, key);
      ghost var t1 := state.db.table.value;
      verified, outcome, again := Conclude(token, key, number, seen, end);
      LaterTransitive(t, t1, state.db.table.value);
    }

    /** One round of looking: seen is None when no bundle could be claimed. */
    method Round(token: Token, key: Key)
      returns (verified: Option<Key>, outcome: Outcome, seen: Option<seq<S3State>>, again: bool)
      requires state.db.table.Some? && Inv(state.db.table.value)
      modifies state.db`table, state.db`clock, `bundleClaims, `misses, outside`heads, outside`halts
      ensures state.db.table.Some? && Later(old(state.db.table.value), state.db.table.value)
      ensures verified.Some? <==> outcome.Proceed?
      ensures verified.Some? ==>
        var v := state.db.table.value.job.verified; v.Some? && v.value.key == verified.value
      ensures outcome.Proceed? || outcome.Deferred? || outcome.MovedToFallback?
      ensures verified.Some? || again ==> outside.halts == old(outside.halts) && misses == old(misses)
      ensures old(outside.halts) <= outside.halts && old(misses) <= misses
      ensures outcome.Deferred? && !again ==>
        old(outside.halts) < outside.halts || old(misses) < misses || (seen.Some? && Unclear(seen.value))
      ensures seen.None? ==> bundleClaims == old(bundleClaims) && outside.heads == old(outside.heads)
      ensures seen.None? ==> !again && !outcome.MovedToFallback?
      ensures seen.Some? ==>
        && |bundleClaims| == |old(bundleClaims)| + 1 && bundleClaims[..|old(bundleClaims)|] == old(bundleClaims)
        && var number := bundleClaims[|old(bundleClaims)|];
           && outside.heads == old(outside.heads) + Requests(key, number, seen.value)
           && old(state.db.table.value.job.s3Attempts) < number <= state.db.table.value.job.s3Attempts
           && (exists end :: EndsAs(seen.value, end))
           && (outcome.MovedToFallback? ==>
                 EndedNotFound(seen.value) && number == S3_CHECK_LIMIT
                 && At(state.db.table.value.job, FallbackRunning, RunFallback))
    {
      hide Inv, Evolves, OneCall, EndsAs, EndedNotFound, Requests, At, Unclear, Kept;
      ghost var t0 := state.db.table.value;
      LaterReflexive(t0);
      verified, outcome, seen, again := None, Deferred, None, false;
      var go := outside.MayContinue();
      if !go { return; }
      var claim := ClaimBundle(token);
      if !claim.applied {
        if claim.reason == AlreadyThere { verified, outcome := Some(claim.job.value.verified.value.key), Proceed; }
        return;
      }
      ghost var t1 := state.db.table.value;
      LaterKeeps(t0, t1);
      var answers;
      verified, outcome, answers, again := Look(token, key, claim.job.value.s3Attempts);
      LaterTransitive(t0, t1, state.db.table.value);
      LaterKeeps(t1, state.db.table.value);
      seen := Some(answers);
    }

    /** Rounds until one settles the matter. */
    method LookFor(token: Token, key: Key)
      returns (verified: Option<Key>, outcome: Outcome, bundles: seq<seq<S3State>>)
      requires state.db.table.Some? && Inv(state.db.table.value)
      modifies state.db`table, state.db`clock, `bundleClaims, `misses, outside`heads, outside`halts
      ensures state.db.table.Some? && Later(old(state.db.table.value), state.db.table.value)
      ensures verified.Some? <==> outcome.Proceed?
      ensures outcome.Proceed? || outcome.Deferred? || outcome.MovedToFallback?
      ensures verified.Some? ==>
        var v := state.db.table.value.job.verified; v.Some? && v.value.key == verified.value
      ensures Looked(key, old(bundleClaims), old(outside.heads), bundleClaims, outside.heads, bundles)
      ensures |bundles| + old(state.db.table.value.job.s3Attempts) <= S3_CHECK_LIMIT
      ensures verified.Some? ==> outside.halts == old(outside.halts) && misses == old(misses)
      ensures old(outside.halts) <= outside.halts && old(misses) <= misses
      ensures outcome.Deferred? ==>
        old(outside.halts) < outside.halts || old(misses) < misses
        || (bundles != [] && Unclear(bundles[|bundles| - 1]))
      ensures outcome.MovedToFallback? ==>
        && bundles != [] && EndedNotFound(bundles[|bundles| - 1])
        && bundleClaims != [] && bundleClaims[|bundleClaims| - 1] == S3_CHECK_LIMIT
        && At(state.db.table.value.job, FallbackRunning, RunFallback)
    {
      hide Evolves, Inv, EndsAs, EndedNotFound, Requests, AllRequests, Looked, At, Unclear;
      ghost var halts0, misses0 := outside.halts, misses;
      ghost var t0, claims0, heads0 := state.db.table.value, bundleClaims, outside.heads;
      LaterReflexive(t0);
      LaterKeeps(t0, t0);
      NothingSeen(key, claims0, heads0);
      bundles, verified, outcome := [], None, Deferred;
      var again := true;
      while again
        invariant state.db.table.Some? && Later(t0, state.db.table.value)
        invariant |bundles| + t0.job.s3Attempts <= state.db.table.value.job.s3Attempts <= S3_CHECK_LIMIT
        invariant Looked(key, claims0, heads0, bundleClaims, outside.heads, bundles)
        invariant verified.Some? <==> outcome.Proceed?
        invariant outcome.Proceed? || outcome.Deferred? || outcome.MovedToFallback?
        invariant halts0 <= outside.halts && misses0 <= misses
        invariant verified.Some? || again ==> outside.halts == halts0 && misses == misses0
        invariant !again && outcome.Deferred? ==>
          halts0 < outside.halts || misses0 < misses || (bundles != [] && Unclear(bundles[|bundles| - 1]))
        invariant verified.Some? ==>
          var v := state.db.table.value.job.verified; v.Some? && v.value.key == verified.value
        invariant outcome.MovedToFallback? ==>
          && bundles != [] && EndedNotFound(bundles[|bundles| - 1])
          && bundleClaims != [] && bundleClaims[|bundleClaims| - 1] == S3_CHECK_LIMIT
          && At(state.db.table.value.job, FallbackRunning, RunFallback)
        decreases again, S3_CHECK_LIMIT - state.db.table.value.job.s3Attempts
      {
        ghost var t1, claims1, heads1 := state.db.table.value, bundleClaims, outside.heads;
        var seen;
        verified, outcome, seen, again := Round(token, key);
        LaterTransitive(t0, t1, state.db.table.value);
        LaterKeeps(t1, state.db.table.value);
        if seen.Some? {
          SeenOnceMore(key, claims0, heads0, claims1, heads1, bundles, bundleClaims, outside.heads, seen.value);
          bundles := bundles + [seen.value];
        }
      }
    }

    /**
     * Direct uploads: claim a bundle, look for the object, and after a second bundle that ended in NOT_FOUND hand the
     * job to the fallback. bundles are the answers to the requests made, bundle by bundle.
     */
    method VerifyImage(token: Token, key: Option<Key>)
      returns (verified: Option<Key>, outcome: Outcome, bundles: seq<seq<S3State>>)
      requires state.db.table.Some? && Inv(state.db.table.value)
      modifies state.db`table, state.db`clock, `bundleClaims, `misses, outside`heads, outside`halts
      ensures state.db.table.Some? && Later(old(state.db.table.value), state.db.table.value)
      ensures verified.Some? <==> outcome.Proceed?
      ensures outcome.Proceed? || outcome.Deferred? || outcome.MovedToFallback?
      ensures verified.Some? ==>
        var v := state.db.table.value.job.verified; v.Some? && v.value.key == verified.value
      // every request belongs to a bundle claimed in this call, and there are at most two of those in the job's life
      ensures Looked(KeyOr(key), old(bundleClaims), old(outside.heads), bundleClaims, outside.heads, bundles)
      ensures |bundles| + old(state.db.table.value.job.s3Attempts) <= S3_CHECK_LIMIT
      ensures key.None? ==> bundles == []
      // waiting is for a reason
      ensures verified.Some? ==> outside.halts == old(outside.halts) && misses == old(misses)
      ensures old(outside.halts) <= outside.halts && old(misses) <= misses
      ensures outcome.Deferred? ==>
        || key.None? || old(outside.halts) < outside.halts || old(misses) < misses
        || (bundles != [] && Unclear(bundles[|bundles| - 1]))
      // the fallback is only ever entered on the word of a whole second bundle made under this very token
      ensures outcome.MovedToFallback? ==>
        && bundles != [] && EndedNotFound(bundles[|bundles| - 1])
        && bundleClaims != [] && bundleClaims[|bundleClaims| - 1] == S3_CHECK_LIMIT
        && At(state.db.table.value.job, FallbackRunning, RunFallback)
    {
      hide Evolves, Inv, EndsAs, EndedNotFound, Looked, At, Unclear;
      LaterReflexive(state.db.table.value);
      LaterKeeps(state.db.table.value, state.db.table.value);
      NothingSeen(KeyOr(key), bundleClaims, outside.heads);
      bundles, verified, outcome := [], None, Deferred;
      if key.Some? { verified, outcome, bundles := LookFor(token, key.value); }
    }

    /** The logs after some bundles: one number each, one run of requests each. */
    ghost predicate Looked(key: Key, claims: seq<nat>, heads: seq<HeadCall>, claims': seq<nat>,
                           heads': seq<HeadCall>, bundles: seq<seq<S3State>>)
    {
      && |claims'| == |claims| + |bundles| && claims'[..|claims|] == claims
      && heads' == heads + AllRequests(key, claims'[|claims|..], bundles)
      && forall b <- bundles :: exists end :: EndsAs(b, end)
    }

    lemma NothingSeen(key: Key, claims: seq<nat>, heads: seq<HeadCall>)
      ensures Looked(key, claims, heads, claims, heads, [])
    {}

    lemma SeenOnceMore(key: Key, claims: seq<nat>, heads: seq<HeadCall>, claims1: seq<nat>, heads1: seq<HeadCall>,
                       bundles: seq<seq<S3State>>, claims2: seq<nat>, heads2: seq<HeadCall>, seen: seq<S3State>)
      requires Looked(key, claims, heads, claims1, heads1, bundles)
      requires |claims2| == |claims1| + 1 && claims2[..|claims1|] == claims1
      requires heads2 == heads1 + Requests(key, claims2[|claims1|], seen) && exists end :: EndsAs(seen, end)
      ensures Looked(key, claims, heads, claims2, heads2, bundles + [seen])
    {
      hide EndsAs, Requests;
      var number := claims2[|claims1|];
      OneMoreBundle(key, claims1[|claims|..], bundles, number, seen);
      assert claims2 == claims1 + [number];
      assert claims2[|claims|..] == claims1[|claims|..] + [number];
    }

    /** Stored by us: the download either yields the object at the planned key or is put off. */
    method StoreImage(token: Token, key: Option<Key>, url: Option<string>) returns (verified: Option<Key>)
      requires state.db.table.Some? && Inv(state.db.table.value)
      modifies state.db`table, state.db`clock, `misses, outside`stores, outside`halts
      ensures state.db.table.Some? && Later(old(state.db.table.value), state.db.table.value)
      ensures verified.Some? ==> outside.halts == old(outside.halts) && misses == old(misses)
      ensures old(outside.halts) <= outside.halts && old(misses) <= misses
      ensures verified.None? ==>
        || key.None? || url.None? || old(outside.halts) < outside.halts || old(misses) < misses
        || outside.stores == old(outside.stores) + [StoreCall(key.value, false)]
      ensures verified.Some? ==>
        var v := state.db.table.value.job.verified; v.Some? && v.value.key == verified.value
      // without key, URL or a stored object nothing is recorded
      ensures verified.Some? ==>
        key.Some? && url.Some? && outside.stores == old(outside.stores) + [StoreCall(key.value, true)]
      ensures state.db.table == old(state.db.table)
              || (key.Some? && outside.stores == old(outside.stores) + [StoreCall(key.value, true)])
      ensures key.None? || url.None? ==> outside.stores == old(outside.stores)
    {
      LaterReflexive(state.db.table.value);
      hide Inv, Evolves;
      verified := None;
      if key.None? || url.None? { return; }
      var go := outside.MayContinue();
      if !go { return; }
      var stored := outside.StoreObject(key.value);
      if !stored { return; }
      go := outside.MayContinue();
      if !go { return; }
      ghost var applied;
      verified, applied := RecordImage(token, key.value);
    }

    // ----- title and comment -----

    /** The image the texts are for is still the one to be described. */
    predicate OnImage(j: Job, key: Key) {
      if j.status == Postprocessing then
        j.nextAction == Some(Postprocess) && j.verified.Some? && j.verified.value.key == key
      else
        j.status == FallbackRunning && j.nextAction == Some(RunFallback) && j.fallbackKey == Some(key)
    }

    /** The row is still at the stage and on the image the texts are written for. */
    predicate StageOk(j: Job, key: Key) {
      || (At(j, Postprocessing, Postprocess) && j.verified.Some? && j.verified.value.key == key)
      || (At(j, FallbackRunning, RunFallback) && j.fallbackKey == Some(key))
    }

    /** Work is stopped only for a reason: it was told to stop, the job was no longer its own, or a result is there. */
    predicate Excused(halts: nat, misses: nat, halts': nat, misses': nat, stop: Option<Outcome>, j: Job) {
      && halts <= halts' && misses <= misses'
      && (stop == Some(Deferred) ==> halts < halts' || misses < misses')
      && (stop == Some(DoneAlready) ==> j.payload.Some?)
      // and for such a reason it is stopped
      && (stop.None? ==> halts == halts' && misses == misses')
    }

    /** The check before each generation: None means go on, with the count the row showed. */
    method Gate(token: Token, key: Key) returns (stop: Option<Outcome>, count: nat)
      requires state.db.table.Some? && Inv(state.db.table.value)
      modifies state.db`table, state.db`clock, `misses, outside`halts
      ensures state.db.table.Some? && Later(old(state.db.table.value), state.db.table.value)
      ensures stop.None? ==> outside.halts == old(outside.halts) && misses == old(misses)
      ensures old(outside.halts) <= outside.halts && old(misses) <= misses
      ensures misses != old(misses) ==>
        var j := state.db.table.value.job;
        misses == old(misses) + 1 && (!OnImage(j, key) || !LeaseValid(j, token, state.db.clock))
      ensures stop == Some(Deferred) ==> old(outside.halts) < outside.halts || old(misses) < misses
      ensures stop == Some(DoneAlready) ==> state.db.table.value.job.payload.Some?
      ensures stop.Some? ==> stop.value.Deferred? || stop.value.DoneAlready?
      ensures stop.None? ==>
        var j := state.db.table.value.job;
        j.payload.None? && OnImage(j, key) && LeaseValid(j, token, state.db.clock) && count == j.llmAttempts
    {
      hide Inv, Evolves;
      Meanwhile(state.db);
      var go := outside.MayContinue();
      var j := state.db.table.value.job;
      count := j.llmAttempts;
      if !go { return Some(Deferred), count; }
      if j.payload.Some? { return Some(DoneAlready), count; }
      if !StageOk(j, key) {
        misses := misses + 1;
        return Some(Deferred), count;
      }
      var held := state.HoldsLease(token);
      if !held {
        misses := misses + 1;
        return Some(Deferred), count;
      }
      stop := None;
    }

    /** A claimed number, or none: stop says whether the work has to end or only this text. */
    method ClaimGeneration(token: Token) returns (number: Option<nat>, stop: Option<Outcome>)
      requires state.db.table.Some? && Inv(state.db.table.value)
      modifies state.db`table, state.db`clock, `textClaims, `misses
      ensures state.db.table.Some? && Later(old(state.db.table.value), state.db.table.value)
      ensures misses == old(misses) + if stop.Some? then 1 else 0
      ensures OneCall(old(state.db.table.value), StageCall(token, ClaimLlm), state.db.table.value, state.db.clock,
                      state.db.horizon, number.Some?)
      ensures number.Some? ==>
        && old(state.db.table.value.job.llmAttempts) < number.value == state.db.table.value.job.llmAttempts
        && textClaims == old(textClaims) + [number.value] && stop.None?
      ensures number.None? ==> textClaims == old(textClaims)
      ensures stop.Some? ==> stop.value.Deferred?
      // giving up without being stopped means the budget is spent, and only that
      ensures number.None? ==>
        var j := state.db.table.value.job;
        (stop.None? <==>
           !Terminal(j) && LeaseValid(j, token, state.db.clock) && j.llmAttempts == LLM_GENERATION_LIMIT)
    {
      hide Inv, Evolves, Step, Applies;
      ghost var t := state.db.table.value;
      Meanwhile(state.db);
      ghost var t1 := state.db.table.value;
      LaterStep(t, t1, StageCall(token, ClaimLlm), state.db.clock, state.db.horizon);
      LaterKeeps(t, t1);
      Budgets.StepCounts(Budgets.Generation, StageCall(token, ClaimLlm), t1, state.db.clock, state.db.horizon);
      if !Applies(StageCall(token, ClaimLlm), t1, state.db.clock, state.db.horizon) {
        LeaseRuns.RefusedDoesNothing(StageCall(token, ClaimLlm), t1, state.db.clock, state.db.horizon);
      }
      var change := state.ClaimLlmGenerationAttempt(token);
      if change.applied {
        number, stop := Some(change.job.value.llmAttempts), None;
        textClaims := textClaims + [number.value];
        return;
      }
      number := None;
      stop := if change.reason == LimitReached then None else Some(Deferred);
      if stop.Some? { misses := misses + 1; }
    }

    /** Gate and claim before one generation; only a comment needs a signed URL, and only while the count allows one. */
    method Reserve(token: Token, key: Key, forComment: bool) returns (number: Option<nat>, stop: Option<Outcome>)
      requires state.db.table.Some? && Inv(state.db.table.value)
      modifies state.db`table, state.db`clock, `textClaims, `misses, outside`halts, outside`urls
      ensures state.db.table.Some? && Later(old(state.db.table.value), state.db.table.value)
      ensures Excused(old(outside.halts), old(misses), outside.halts, misses, stop, state.db.table.value.job)
      ensures old(state.db.table.value.job.llmAttempts) <= state.db.table.value.job.llmAttempts
      // only a comment needs a signed URL, and only while the count the row shows allows one
      ensures number.Some? ==> outside.urls == old(outside.urls) + if forComment then 1 else 0
      ensures old(outside.urls) <= outside.urls <= old(outside.urls) + 1
      ensures !forComment || old(state.db.table.value.job.llmAttempts) >= LLM_GENERATION_LIMIT ==>
        outside.urls == old(outside.urls)
      ensures number.Some? ==>
        && old(state.db.table.value.job.llmAttempts) < number.value == state.db.table.value.job.llmAttempts
        && textClaims == old(textClaims) + [number.value] && stop.None?
      ensures number.None? ==> textClaims == old(textClaims)
      ensures stop.Some? ==> stop.value.Deferred? || stop.value.DoneAlready?
      ensures number.None? && stop.None? ==> state.db.table.value.job.llmAttempts == LLM_GENERATION_LIMIT
    {
      hide Inv, Evolves, OneCall;
      ghost var t := state.db.table.value;
      var count;
      stop, count := Gate(token, key);
      ghost var t1 := state.db.table.value;
      LaterKeeps(t, t1);
      number := None;
      if stop.Some? { return; }
      if forComment {
        if count >= LLM_GENERATION_LIMIT { return; }
        var signed := outside.SignUrl();
        if !signed { return None, Some(Deferred); }
      }
      number, stop := ClaimGeneration(token);
      LaterTransitive(t, t1, state.db.table.value);
      LaterKeeps(t1, state.db.table.value);
    }

    // ----- what the logs say -----

    function Numbers(calls: seq<TextCall>): seq<nat> {
      seq(|calls|, i requires 0 <= i < |calls| => calls[i].claim)
    }

    /** An answer that can be stored: not blank once stripped, and for a title short enough as it is. */
    predicate Usable(answer: Option<string>, about: Option<string>) {
      answer.Some? && !Blank(answer.value) && (about.Some? ==> |Strip(answer.value)| <= TITLE_MAX_LENGTH)
    }

    /** Numbers claimed one after the other, all of them new since the row showed low. */
    ghost predicate InOrder(numbers: seq<nat>, low: nat, high: nat) {
      && low <= high
      && (forall i :: 0 <= i < |numbers| ==> low < numbers[i] <= high)
      && (forall i, k :: 0 <= i < k < |numbers| ==> numbers[i] < numbers[k])
    }

    /** New numbers are never more than the counter has moved. */
    lemma {:induction false} InOrderBound(numbers: seq<nat>, low: nat, high: nat)
      requires InOrder(numbers, low, high)
      ensures |numbers| <= high - low
    {
      if numbers != [] {
        var n := |numbers| - 1;
        InOrderBound(numbers[..n], low, numbers[n] - 1);
      }
    }

    /** The calls for one text: two at most, all for it, and it is the first usable answer, stripped, or the default. */
    ghost predicate TextFrom(calls: seq<TextCall>, about: Option<string>, text: Text) {
      && |calls| <= 2 && (forall c <- calls :: c.about == about)
      && match text
         case Default => forall c <- calls :: !Usable(c.answer, about)
         case Generated(s) =>
           && calls != [] && Usable(calls[|calls| - 1].answer, about) && s == Strip(calls[|calls| - 1].answer.value)
           && forall i :: 0 <= i < |calls| - 1 ==> !Usable(calls[i].answer, about)
    }

    /** New entries on both logs: the calls, each under the number of a claim made for it. */
    ghost predicate Logged(log: seq<TextCall>, claims: seq<nat>, log': seq<TextCall>, claims': seq<nat>,
                           calls: seq<TextCall>, low: nat, high: nat)
    {
      log' == log + calls && claims' == claims + Numbers(calls) && InOrder(Numbers(calls), low, high)
    }

    lemma NothingLogged(log: seq<TextCall>, claims: seq<nat>, about: Option<string>, low: nat, high: nat)
      requires low <= high
      ensures Logged(log, claims, log, claims, [], low, high) && TextFrom([], about, Default)
    {}

    lemma LoggedLater(log: seq<TextCall>, claims: seq<nat>, log1: seq<TextCall>, claims1: seq<nat>,
                      calls: seq<TextCall>, low: nat, high: nat, high': nat)
      requires Logged(log, claims, log1, claims1, calls, low, high) && high <= high'
      ensures Logged(log, claims, log1, claims1, calls, low, high')
    {}

    lemma LoggedMore(log: seq<TextCall>, claims: seq<nat>, log1: seq<TextCall>, claims1: seq<nat>,
                     calls: seq<TextCall>, low: nat, high: nat, call: TextCall)
      requires Logged(log, claims, log1, claims1, calls, low, high) && high < call.claim
      ensures Logged(log, claims, log1 + [call], claims1 + [call.claim], calls + [call], low, call.claim)
    {
      assert Numbers(calls + [call]) == Numbers(calls) + [call.claim];
    }

    /** One more answer to an unfinished text: it is the text, or the text stays unfinished. */
    lemma TextAnswered(calls: seq<TextCall>, about: Option<string>, call: TextCall)
      requires TextFrom(calls, about, Default) && |calls| < 2 && call.about == about
      ensures TextFrom(calls + [call], about,
                       if Usable(call.answer, about) then Generated(Strip(call.answer.value)) else Default)
    {
      hide Usable, Strip;
    }

    /** A comment's calls, then a title's. */
    lemma LoggedBoth(log: seq<TextCall>, claims: seq<nat>, log1: seq<TextCall>, claims1: seq<nat>, a: seq<TextCall>,
                     log2: seq<TextCall>, claims2: seq<nat>, b: seq<TextCall>, low: nat, mid: nat, high: nat)
      requires Logged(log, claims, log1, claims1, a, low, mid) && Logged(log1, claims1, log2, claims2, b, mid, high)
      ensures Logged(log, claims, log2, claims2, a + b, low, high)
    {
      assert Numbers(a + b) == Numbers(a) + Numbers(b);
    }

    // ----- asking -----

    /** Claim and ask once; without a number nothing is asked. */
    method AskComment(token: Token, key: Key)
      returns (asked: bool, text: Option<string>, stop: Option<Outcome>, ghost number: nat)
      requires state.db.table.Some? && Inv(state.db.table.value)
      modifies state.db`table, state.db`clock, `textClaims, `misses, outside`texts, outside`halts
      modifies outside`urls
      ensures state.db.table.Some? && Later(old(state.db.table.value), state.db.table.value)
      ensures Excused(old(outside.halts), old(misses), outside.halts, misses, stop, state.db.table.value.job)
      ensures old(state.db.table.value.job.llmAttempts) <= state.db.table.value.job.llmAttempts
      ensures old(outside.urls) <= outside.urls <= old(outside.urls) + 1
      ensures asked ==> outside.urls == old(outside.urls) + 1
      ensures old(state.db.table.value.job.llmAttempts) >= LLM_GENERATION_LIMIT ==> outside.urls == old(outside.urls)
      ensures asked ==>
        && old(state.db.table.value.job.llmAttempts) < number == state.db.table.value.job.llmAttempts
        && textClaims == old(textClaims) + [number] && stop.None?
        && outside.texts == old(outside.texts) + [TextCall(number, None, text)]
      ensures !asked ==> textClaims == old(textClaims) && outside.texts == old(outside.texts)
      ensures stop.Some? ==> stop.value.Deferred? || stop.value.DoneAlready?
      ensures !asked && stop.None? ==> state.db.table.value.job.llmAttempts == LLM_GENERATION_LIMIT
    {
      hide Inv, Evolves;
      var reserved;
      reserved, stop := Reserve(token, key, true);
      asked, text, number := reserved.Some?, None, 0;
      if asked {
        number := reserved.value;
        text := outside.GenerateComment(number);
      }
    }

    method AskTitle(token: Token, key: Key, comment: string)
      returns (asked: bool, text: Option<string>, stop: Option<Outcome>, ghost number: nat)
      requires state.db.table.Some? && Inv(state.db.table.value)
      modifies state.db`table, state.db`clock, `textClaims, `misses, outside`texts, outside`halts
      modifies outside`urls
      ensures state.db.table.Some? && Later(old(state.db.table.value), state.db.table.value)
      ensures Excused(old(outside.halts), old(misses), outside.halts, misses, stop, state.db.table.value.job)
      ensures old(state.db.table.value.job.llmAttempts) <= state.db.table.value.job.llmAttempts
      ensures outside.urls == old(outside.urls)
      ensures asked ==>
        && old(state.db.table.value.job.llmAttempts) < number == state.db.table.value.job.llmAttempts
        && textClaims == old(textClaims) + [number] && stop.None?
        && outside.texts == old(outside.texts) + [TextCall(number, Some(comment), text)]
      ensures !asked ==> textClaims == old(textClaims) && outside.texts == old(outside.texts)
      ensures stop.Some? ==> stop.value.Deferred? || stop.value.DoneAlready?
      ensures !asked && stop.None? ==> state.db.table.value.job.llmAttempts == LLM_GENERATION_LIMIT
    {
      hide Inv, Evolves;
      var reserved;
      reserved, stop := Reserve(token, key, false);
      asked, text, number := reserved.Some?, None, 0;
      if asked {
        number := reserved.value;
        text := outside.GenerateTitle(number, comment);
      }
    }

    /** Up to two requests for a comment; calls are the requests made. */
    method WriteComment(token: Token, key: Key)
      returns (comment: Text, stop: Option<Outcome>, ghost calls: seq<TextCall>)
      requires state.db.table.Some? && Inv(state.db.table.value)
      modifies state.db`table, state.db`clock, `textClaims, `misses, outside`texts, outside`halts
      modifies outside`urls
      ensures state.db.table.Some? && Later(old(state.db.table.value), state.db.table.value)
      ensures Excused(old(outside.halts), old(misses), outside.halts, misses, stop, state.db.table.value.job)
      // every request shows the image under a URL of its own
      ensures old(outside.urls) + |calls| <= outside.urls <= old(outside.urls) + LLM_COMMENT_ATTEMPT_LIMIT
      ensures Logged(old(outside.texts), old(textClaims), outside.texts, textClaims, calls,
                     old(state.db.table.value.job.llmAttempts), state.db.table.value.job.llmAttempts)
      ensures TextFrom(calls, None, comment)
      ensures stop.Some? ==> comment.Default? && (stop.value.Deferred? || stop.value.DoneAlready?)
      ensures comment.Default? && stop.None? ==>
        |calls| == LLM_COMMENT_ATTEMPT_LIMIT || state.db.table.value.job.llmAttempts == LLM_GENERATION_LIMIT
    {
      hide Inv, Evolves, Logged, TextFrom, Strip;
      ghost var t0, log, claims := state.db.table.value, outside.texts, textClaims;
      ghost var low := t0.job.llmAttempts;
      LaterReflexive(t0);
      NothingLogged(log, claims, None, low, low);
      ghost var halts, missed, urls := outside.halts, misses, outside.urls;
      comment, stop, calls := Default, None, [];
      var attempt, asked := 0, true;
      while asked && attempt < LLM_COMMENT_ATTEMPT_LIMIT
        invariant state.db.table.Some? && Later(t0, state.db.table.value) && comment.Default?
        invariant Excused(halts, missed, outside.halts, misses, stop, state.db.table.value.job)
        invariant |calls| == attempt <= LLM_COMMENT_ATTEMPT_LIMIT
        invariant urls + attempt <= outside.urls <= urls + attempt + (if asked then 0 else 1)
        invariant asked || attempt < LLM_COMMENT_ATTEMPT_LIMIT
        invariant !asked && stop.None? ==> state.db.table.value.job.llmAttempts == LLM_GENERATION_LIMIT
        invariant Logged(log, claims, outside.texts, textClaims, calls, low, state.db.table.value.job.llmAttempts)
        invariant TextFrom(calls, None, Default)
        invariant stop.Some? ==> !asked && (stop.value.Deferred? || stop.value.DoneAlready?)
        decreases asked, LLM_COMMENT_ATTEMPT_LIMIT - attempt
      {
        ghost var t1, log1, claims1 := state.db.table.value, outside.texts, textClaims;
        var text;
        ghost var number;
        asked, text, stop, number := AskComment(token, key);
        LaterTransitive(t0, t1, state.db.table.value);
        if asked {
          attempt := attempt + 1;
          ghost var call := TextCall(number, None, text);
          LoggedMore(log, claims, log1, claims1, calls, low, t1.job.llmAttempts, call);
          TextAnswered(calls, None, call);
          calls := calls + [call];
          if text.Some? && !Blank(text.value) {
            comment := Generated(Strip(text.value));
            return;
          }
        } else {
          LoggedLater(log, claims, log1, claims1, calls, low, t1.job.llmAttempts, state.db.table.value.job.llmAttempts);
        }
      }
    }

    /** Up to two requests for a title, all of them for this comment. */
    method WriteTitle(token: Token, key: Key, comment: string)
      returns (title: Text, stop: Option<Outcome>, ghost calls: seq<TextCall>)
      requires state.db.table.Some? && Inv(state.db.table.value)
      modifies state.db`table, state.db`clock, `textClaims, `misses, outside`texts, outside`halts
      modifies outside`urls
      ensures state.db.table.Some? && Later(old(state.db.table.value), state.db.table.value)
      ensures Excused(old(outside.halts), old(misses), outside.halts, misses, stop, state.db.table.value.job)
      ensures outside.urls == old(outside.urls)
      ensures Logged(old(outside.texts), old(textClaims), outside.texts, textClaims, calls,
                     old(state.db.table.value.job.llmAttempts), state.db.table.value.job.llmAttempts)
      ensures TextFrom(calls, Some(comment), title)
      ensures stop.Some? ==> title.Default? && (stop.value.Deferred? || stop.value.DoneAlready?)
      ensures title.Default? && stop.None? ==>
        |calls| == LLM_TITLE_ATTEMPT_LIMIT || state.db.table.value.job.llmAttempts == LLM_GENERATION_LIMIT
    {
      hide Inv, Evolves, Logged, TextFrom, Strip;
      ghost var t0, log, claims := state.db.table.value, outside.texts, textClaims;
      ghost var low := t0.job.llmAttempts;
      LaterReflexive(t0);
      NothingLogged(log, claims, Some(comment), low, low);
      ghost var halts, missed, urls := outside.halts, misses, outside.urls;
      title, stop, calls := Default, None, [];
      var attempt, asked := 0, true;
      while asked && attempt < LLM_TITLE_ATTEMPT_LIMIT
        invariant state.db.table.Some? && Later(t0, state.db.table.value) && title.Default?
        invariant Excused(halts, missed, outside.halts, misses, stop, state.db.table.value.job)
        invariant |calls| == attempt <= LLM_TITLE_ATTEMPT_LIMIT && outside.urls == urls
        invariant !asked && stop.None? ==> state.db.table.value.job.llmAttempts == LLM_GENERATION_LIMIT
        invariant Logged(log, claims, outside.texts, textClaims, calls, low, state.db.table.value.job.llmAttempts)
        invariant TextFrom(calls, Some(comment), Default)
        invariant stop.Some? ==> !asked && (stop.value.Deferred? || stop.value.DoneAlready?)
        decreases asked, LLM_TITLE_ATTEMPT_LIMIT - attempt
      {
        ghost var t1, log1, claims1 := state.db.table.value, outside.texts, textClaims;
        var text;
        ghost var number;
        asked, text, stop, number := AskTitle(token, key, comment);
        LaterTransitive(t0, t1, state.db.table.value);
        if asked {
          attempt := attempt + 1;
          ghost var call := TextCall(number, Some(comment), text);
          LoggedMore(log, claims, log1, claims1, calls, low, t1.job.llmAttempts, call);
          TextAnswered(calls, Some(comment), call);
          calls := calls + [call];
          if text.Some? && !Blank(text.value) {
            var stripped := Strip(text.value);
            if |stripped| <= TITLE_MAX_LENGTH {
              title := Generated(stripped);
              return;
            }
          }
        } else {
          LoggedLater(log, claims, log1, claims1, calls, low, t1.job.llmAttempts, state.db.table.value.job.llmAttempts);
        }
      }
    }

    /** Comment first, then a title for exactly that comment; no comment, no title. */
    method TitleAndComment(token: Token, key: Key, described: bool)
      returns (title: Text, comment: Text, stop: Option<Outcome>,
               ghost commentCalls: seq<TextCall>, ghost titleCalls: seq<TextCall>)
      requires state.db.table.Some? && Inv(state.db.table.value)
      modifies state.db`table, state.db`clock, `textClaims, `misses, outside`texts, outside`halts
      modifies outside`urls
      ensures state.db.table.Some? && Later(old(state.db.table.value), state.db.table.value)
      ensures Excused(old(outside.halts), old(misses), outside.halts, misses, stop, state.db.table.value.job)
      ensures old(outside.urls) + |commentCalls| <= outside.urls <= old(outside.urls) + LLM_COMMENT_ATTEMPT_LIMIT
      ensures !described ==> outside.urls == old(outside.urls)
      // all calls of this execution, one per claim, at most two and two, and no more than the counter has moved
      ensures Logged(old(outside.texts), old(textClaims), outside.texts, textClaims, commentCalls + titleCalls,
                     old(state.db.table.value.job.llmAttempts), state.db.table.value.job.llmAttempts)
      ensures |commentCalls| + |titleCalls|
              <= state.db.table.value.job.llmAttempts - old(state.db.table.value.job.llmAttempts)
      ensures Told(commentCalls, titleCalls, comment, title)
      ensures !described ==> commentCalls == []
      // a default text is never chosen while another request is due
      ensures described && comment.Default? && stop.None? ==>
        |commentCalls| == LLM_COMMENT_ATTEMPT_LIMIT || state.db.table.value.job.llmAttempts == LLM_GENERATION_LIMIT
      ensures comment.Generated? && title.Default? && stop.None? ==>
        |titleCalls| == LLM_TITLE_ATTEMPT_LIMIT || state.db.table.value.job.llmAttempts == LLM_GENERATION_LIMIT
      ensures stop.Some? ==> stop.value.Deferred? || stop.value.DoneAlready?
    {
      hide Inv, Evolves, Logged, TextFrom;
      ghost var t0, log, claims := state.db.table.value, outside.texts, textClaims;
      ghost var low := t0.job.llmAttempts;
      LaterReflexive(t0);
      title, comment, stop, commentCalls, titleCalls := Default, Default, None, [], [];
      NothingLogged(log, claims, None, low, low);
      if described {
        comment, stop, commentCalls := WriteComment(token, key);
        if comment.Generated? {
          ghost var t1, log1, claims1 := state.db.table.value, outside.texts, textClaims;
          title, stop, titleCalls := WriteTitle(token, key, comment.text);
          LaterTransitive(t0, t1, state.db.table.value);
          LoggedBoth(log, claims, log1, claims1, commentCalls, outside.texts, textClaims, titleCalls, low,
                     t1.job.llmAttempts, state.db.table.value.job.llmAttempts);
        }
      }
      assert commentCalls + [] == commentCalls;
      LoggedBound(log, claims, outside.texts, textClaims, commentCalls + titleCalls, low,
                  state.db.table.value.job.llmAttempts);
    }

    lemma LoggedBound(log: seq<TextCall>, claims: seq<nat>, log1: seq<TextCall>, claims1: seq<nat>,
                      calls: seq<TextCall>, low: nat, high: nat)
      requires Logged(log, claims, log1, claims1, calls, low, high)
      ensures |calls| <= high - low
    {
      InOrderBound(Numbers(calls), low, high);
    }

    /** A generated title has 1 to 100 characters and no white space at its ends; a generated comment is not blank. */
    lemma TextsAreStorable(calls: seq<TextCall>, about: Option<string>, text: Text)
      requires TextFrom(calls, about, text) && text.Generated?
      ensures !Blank(text.text) && 1 <= |text.text| && !White(text.text[0]) && !White(text.text[|text.text| - 1])
      ensures about.Some? ==> |text.text| <= TITLE_MAX_LENGTH
    {}

    // ----- the result -----

    lemma SaveSets(t: Table, token: Token, p: Payload, key: Key, now: Time, horizon: Time)
      requires Inv(t)
      ensures var c := ResultCall(token, Save(p, Some(key)));
              if Applies(c, t, now, horizon) then Step(c, t, now, horizon).job.payload == Some(p)
              else Step(c, t, now, horizon) == t
      ensures Terminal(t.job) ==> !LeaseValid(t.job, token, now)
    {}

    /** Store the result for the image the row records; a result already there is left as it is. */
    method SaveCompleted(token: Token, key: Key, title: Text, comment: Text)
      returns (outcome: Outcome, applied: bool)
      requires state.db.table.Some? && Inv(state.db.table.value)
      requires Recorded(state.db.table.value.job, key)
      modifies state.db`table, state.db`clock, `misses
      ensures state.db.table.Some? && Later(old(state.db.table.value), state.db.table.value)
      ensures misses == old(misses) + if outcome.Deferred? then 1 else 0
      ensures var p := CompletedResult(old(state.db.table.value.job.id), key, TitleText(title), CommentText(comment));
        && OneCall(old(state.db.table.value), ResultCall(token, Save(p, Some(key))), state.db.table.value,
                   state.db.clock, state.db.horizon, applied)
        // a result that is there already is not waited for
        && (outcome.Deferred? && WellFormed(p) ==>
              var j := state.db.table.value.job; j.payload.None? || !LeaseValid(j, token, state.db.clock))
      ensures outcome.ResultSaved? || outcome.Deferred?
      ensures outcome.ResultSaved? ==> state.db.table.value.job.payload.Some?
      ensures applied ==>
        && outcome.ResultSaved?
        && state.db.table.value.job.payload
           == Some(CompletedResult(old(state.db.table.value.job.id), key, TitleText(title), CommentText(comment)))
    {
      hide Inv, Evolves, Step, Applies, WellFormed;
      ghost var t := state.db.table.value;
      Meanwhile(state.db);
      ghost var t1 := state.db.table.value;
      var id := state.db.table.value.job.id;
      var p := CompletedResult(id, key, TitleText(title), CommentText(comment));
      LaterKeeps(t, t1);
      LaterStep(t, t1, ResultCall(token, Save(p, Some(key))), state.db.clock, state.db.horizon);
      SaveSets(t1, token, p, key, state.db.clock, state.db.horizon);
      var saved := state.SaveFinalResult(token, p, Some(key));
      applied := saved.applied;
      outcome := if applied || saved.reason == AlreadyThere then ResultSaved else Deferred;
      if outcome.Deferred? { misses := misses + 1; }
    }

    /** The image itself cannot be had for now: nothing to look for, an answer that leaves it open, or no storing it. */
    predicate NoImage(job: Job, bundles: seq<seq<S3State>>, stores: seq<StoreCall>, stores': seq<StoreCall>) {
      job.verified.None?
      && if job.aiStores then
           || job.asyncImageKey.None? || job.imageUrl.None?
           || stores' == stores + [StoreCall(KeyOr(job.asyncImageKey), false)]
         else
           job.asyncImageKey.None? || (bundles != [] && Unclear(bundles[|bundles| - 1]))
    }

    /** The image the texts are for: recorded before, stored by us, or looked for. */
    method FindImage(token: Token, job: Job)
      returns (verified: Option<Key>, outcome: Outcome, bundles: seq<seq<S3State>>)
      requires state.db.table.Some? && Inv(state.db.table.value) && job == state.db.table.value.job
      modifies state.db`table, state.db`clock, `bundleClaims, `misses, outside`heads, outside`stores, outside`halts
      ensures state.db.table.Some? && Later(old(state.db.table.value), state.db.table.value)
      ensures verified.Some? ==> outside.halts == old(outside.halts) && misses == old(misses)
      ensures old(outside.halts) <= outside.halts && old(misses) <= misses
      ensures verified.None? && !outcome.MovedToFallback? ==>
        || old(outside.halts) < outside.halts || old(misses) < misses
        || NoImage(job, bundles, old(outside.stores), outside.stores)
      ensures verified.Some? ==>
        var v := state.db.table.value.job.verified; v.Some? && v.value.key == verified.value
      ensures Looked(KeyOr(job.asyncImageKey), old(bundleClaims), old(outside.heads), bundleClaims, outside.heads,
                     bundles)
      ensures job.verified.Some? ==> verified == Some(job.verified.value.key) && bundles == []
      ensures outcome.Proceed? || outcome.Deferred? || outcome.MovedToFallback?
      ensures outcome.MovedToFallback? ==>
        && verified.None? && bundles != [] && EndedNotFound(bundles[|bundles| - 1]) && !job.aiStores
        && At(state.db.table.value.job, FallbackRunning, RunFallback)
    {
      hide Inv, Evolves, Looked, EndsAs;
      LaterReflexive(state.db.table.value);
      NothingSeen(KeyOr(job.asyncImageKey), bundleClaims, outside.heads);
      bundles, outcome := [], Deferred;
      if job.verified.Some? { return Some(job.verified.value.key), Proceed, bundles; }
      if job.aiStores {
        verified := StoreImage(token, job.asyncImageKey, job.imageUrl);
      } else {
        verified, outcome, bundles := VerifyImage(token, job.asyncImageKey);
      }
    }

    /** What the texts of a result come from. */
    ghost predicate Told(commentCalls: seq<TextCall>, titleCalls: seq<TextCall>, comment: Text, title: Text) {
      && TextFrom(commentCalls, None, comment)
      && if comment.Generated? then TextFrom(titleCalls, Some(comment.text), title)
         else titleCalls == [] && title.Default?
    }

    /** The whole handler on the row the lease grant returned; the calls are the text generations it asked for. */
    method Handle(token: Token, job: Job, described: bool)
      returns (outcome: Outcome, applied: bool, bundles: seq<seq<S3State>>, title: Text, comment: Text,
               ghost commentCalls: seq<TextCall>, ghost titleCalls: seq<TextCall>)
      requires state.db.table.Some? && Inv(state.db.table.value) && job == state.db.table.value.job
      modifies state.db`table, state.db`clock, `bundleClaims, `textClaims, `misses
      modifies outside`heads, outside`stores, outside`texts, outside`halts, outside`urls
      ensures state.db.table.Some? && Later(old(state.db.table.value), state.db.table.value)
      ensures outcome.ResultSaved? ==> state.db.table.value.job.payload.Some?
      // a success names the image the row records as verified, with the texts the calls gave
      ensures applied ==>
        var j := state.db.table.value.job;
        j.verified.Some?
        && j.payload == Some(CompletedResult(job.id, j.verified.value.key, TitleText(title), CommentText(comment)))
        // and a reason to stop is heeded
        && outside.halts == old(outside.halts) && misses == old(misses)
      ensures outcome.MovedToFallback? ==>
        && bundles != [] && EndedNotFound(bundles[|bundles| - 1])
        && At(state.db.table.value.job, FallbackRunning, RunFallback)
        && commentCalls == [] && titleCalls == [] && !job.aiStores
      ensures Looked(KeyOr(job.asyncImageKey), old(bundleClaims), old(outside.heads), bundleClaims, outside.heads,
                     bundles)
      ensures Told(commentCalls, titleCalls, comment, title)
      ensures Logged(old(outside.texts), old(textClaims), outside.texts, textClaims, commentCalls + titleCalls,
                     job.llmAttempts, state.db.table.value.job.llmAttempts)
      ensures |commentCalls| + |titleCalls| <= LLM_GENERATION_LIMIT - job.llmAttempts
      // the work is put off only for a reason, and is otherwise brought to its end
      ensures outcome.Deferred? ==>
        || old(outside.halts) < outside.halts || old(misses) < misses
        || NoImage(job, bundles, old(outside.stores), outside.stores)
      ensures outcome.DoneAlready? ==> state.db.table.value.job.payload.Some?
      ensures job.payload.Some? ==>
        outcome.DoneAlready? && bundles == [] && commentCalls == [] && outside.stores == old(outside.stores)
    {
      hide Inv, Evolves, Looked, Logged, EndsAs, TextFrom, TitleText, CommentText, NoImage, Unclear, At;
      ghost var t0, log, claims := state.db.table.value, outside.texts, textClaims;
      ghost var low := t0.job.llmAttempts;
      LaterReflexive(t0);
      LaterKeeps(t0, t0);
      NothingSeen(KeyOr(job.asyncImageKey), bundleClaims, outside.heads);
      NothingLogged(log, claims, None, low, low);
      outcome, applied, bundles := DoneAlready, false, [];
      title, comment, commentCalls, titleCalls := Default, Default, [], [];
      assert commentCalls + titleCalls == [];
      if job.payload.Some? { return; }
      var verified;
      verified, outcome, bundles := FindImage(token, job);
      ghost var t1 := state.db.table.value;
      LaterKeeps(t0, t1);
      NothingLogged(log, claims, None, low, t1.job.llmAttempts);
      if verified.None? { return; }
      var stop;
      title, comment, stop, commentCalls, titleCalls := TitleAndComment(token, verified.value, described);
      ghost var calls, t2 := commentCalls + titleCalls, state.db.table.value;
      LaterTransitive(t0, t1, t2);
      LaterKeeps(t1, t2);
      LoggedBoth(log, claims, log, claims, [], outside.texts, textClaims, calls, low, t1.job.llmAttempts,
                 t2.job.llmAttempts);
      assert [] + calls == calls;
      outcome := if stop.Some? then stop.value else Deferred;
      var go := outside.MayContinue();
      if stop.Some? || !go { return; }
      outcome, applied := SaveCompleted(token, verified.value, title, comment);
      LaterTransitive(t0, t2, state.db.table.value);
      LaterKeeps(t2, state.db.table.value);
      LoggedLater(log, claims, outside.texts, textClaims, calls, low, t2.job.llmAttempts,
                  state.db.table.value.job.llmAttempts);
    }
  }
}
