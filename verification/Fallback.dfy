/** The fallback: one synchronous generation per job, whatever becomes of the worker that asked for it. */
module Fallback {
  import opened Basics
  import opened Jobs
  import opened Transitions
  import opened RowInvariant
  import opened Repository
  import opened Interference
  import opened Postprocess

  /** Only one key is ever recorded for the fallback image of a job. */
  predicate Named(j: Job, key: Key) { j.fallbackKey.Some? ==> j.fallbackKey == Some(key) }

  /** What the checks before a generation say: products, photo, budget and balance. */
  datatype Check = Fine | Refused(code: string, message: string) | Postponed

  const BALANCE_CODE := "FITTING_BALANCE_EXHAUSTED"
  const BALANCE_MESSAGE := "현재 가상 피팅 서비스를 이용할 수 없습니다. 잠시 후 다시 시도해주세요."
  const MODEL_CODE := "FITTING_MODEL_FAILED"
  const MODEL_MESSAGE := "가상 피팅 이미지 생성에 실패했습니다."

  /** New entries on the provider's log: one per slot claimed, the last number there is, and one at the most. */
  ghost predicate Asked(log: seq<TryOnCall>, slots: seq<nat>, log': seq<TryOnCall>, slots': seq<nat>,
                        calls: seq<TryOnCall>)
  {
    && log' == log + calls && |calls| <= 1
    && slots' == slots + (if calls == [] then [] else [calls[0].claim])
  }

  /** A generation was asked for under the job's only slot, taken in between, and under the task on record. */
  ghost predicate Spent(before: Job, after: Job, call: TryOnCall) {
    && before.fallbackAttempts == 0 && after.fallbackAttempts == FALLBACK_LIMIT == call.claim
    && after.fallbackTask == Some(call.task)
  }

  function Postponements(checks: seq<Check>): nat {
    if checks == [] then 0
    else Postponements(checks[..|checks| - 1]) + if checks[|checks| - 1].Postponed? then 1 else 0
  }

  class RunFallbackHandler {
    const texts: PostprocessHandler
    const limiter: PrunaLimiter
    const resultKey: Key   // fallback_result_key of this job
    ghost var slotClaims: seq<nat>  // the numbers its granted slots got, in order
    ghost var checks: seq<Check>    // what the checks said, in order
    ghost var misses: nat           // how often the database refused it
    ghost var busy: nat             // how often no slot was free

    constructor (texts: PostprocessHandler, limiter: PrunaLimiter, resultKey: Key)
      requires limiter.db == texts.state.db
      ensures this.texts == texts && this.limiter == limiter && this.resultKey == resultKey
      ensures slotClaims == [] && checks == [] && misses == 0 && busy == 0
    {
      this.texts, this.limiter, this.resultKey := texts, limiter, resultKey;
      slotClaims, checks, misses, busy := [], [], 0, 0;
    }

    /** How often something has kept the work from going on: a stop, a refusal, a check put off. */
    ghost function Obstacles(): nat
      reads `misses, `checks, texts`misses, texts.outside`halts
    {
      texts.outside.halts + texts.misses + misses + Postponements(checks)
    }

    ghost predicate Ready()
      reads texts.state.db
    {
      && limiter.db == texts.state.db && texts.state.db.table.Some? && Inv(texts.state.db.table.value)
      && Named(texts.state.db.table.value.job, resultKey)
    }

    /** The other actors record no other key for the fallback image. */
    method Pause()
      requires Ready()
      modifies texts.state.db`table, texts.state.db`clock
      ensures Ready() && Later(old(texts.state.db.table.value), texts.state.db.table.value)
    {
      EvolvesReflexive(texts.state.db.table.value.job);
    }

    method CheckInput() returns (check: Check)
      modifies `checks
      ensures checks == old(checks) + [check]
    {
      check := *;
      checks := checks + [check];
    }

    lemma StepNamed(c: Command, t: Table, now: Time, horizon: Time)
      requires Named(t.job, resultKey)
      requires c.StageCall? || c.ResultCall?
      requires c.StageCall? && c.stage.RecordFallbackImage? ==> c.stage.key == resultKey
      ensures Named(Step(c, t, now, horizon).job, resultKey)
    {}

    /** What the row-only calls of the fallback leave behind. */
    lemma CallSets(c: Command, t: Table, token: Token, now: Time, horizon: Time)
      requires Inv(t) && TokenOf(c) == Some(token) && (c.StageCall? || c.ResultCall?)
      ensures !Applies(c, t, now, horizon) ==> Step(c, t, now, horizon) == t
      ensures Applies(c, t, now, horizon) && c.StageCall? && c.stage.PrepareFallback? ==>
        Step(c, t, now, horizon).job.fallbackTask == Some(c.stage.task)
      ensures Applies(c, t, now, horizon) && c.StageCall? && c.stage.RecordFallbackImage? ==>
        Step(c, t, now, horizon).job.fallbackKey == Some(c.stage.key)
      ensures Applies(c, t, now, horizon) && c.ResultCall? && c.result.Save? ==>
        Step(c, t, now, horizon).job.payload == Some(c.result.payload)
      ensures Terminal(t.job) ==> !LeaseValid(t.job, token, now)
    {}

    /** The task to generate under, drawn before anything is sent; one drawn earlier is used again. */
    method PrepareTask(token: Token, drawn: TaskId) returns (task: Option<TaskId>, ghost applied: bool)
      requires Ready()
      modifies texts.state.db`table, texts.state.db`clock, `misses
      ensures Ready() && Later(old(texts.state.db.table.value), texts.state.db.table.value)
      ensures OneCall(old(texts.state.db.table.value), StageCall(token, PrepareFallback(drawn)),
                      texts.state.db.table.value, texts.state.db.clock, texts.state.db.horizon, applied)
      ensures misses == old(misses) + if task.Some? then 0 else 1
      ensures task.Some? ==> texts.state.db.table.value.job.fallbackTask == task
      ensures task.None? ==>
        var j := texts.state.db.table.value.job;
        j.fallbackTask.None? || !LeaseValid(j, token, texts.state.db.clock)
    {
      hide Inv, Evolves, Named, Step, Applies;
      var db := texts.state.db;
      ghost var t := db.table.value;
      Pause();
      ghost var c := StageCall(token, PrepareFallback(drawn));
      LaterStep(t, db.table.value, c, db.clock, db.horizon);
      StepNamed(c, db.table.value, db.clock, db.horizon);
      CallSets(c, db.table.value, token, db.clock, db.horizon);
      var change := texts.state.PrepareFallbackTask(token, drawn);
      applied := change.applied;
      if change.applied { return Some(drawn), applied; }
      if change.reason == AlreadyThere { return change.job.value.fallbackTask, applied; }
      task := None;
      misses := misses + 1;
    }

    /** One try for the slot; being granted it uses up the job's only fallback. */
    method TakeSlot(token: Token, task: TaskId) returns (granted: bool, again: bool)
      requires Ready()
      modifies texts.state.db`table, texts.state.db`clock, `slotClaims, `misses, `busy
      ensures Ready() && Later(old(texts.state.db.table.value), texts.state.db.table.value)
      ensures misses == old(misses) + (if granted || again then 0 else 1)
      ensures busy == old(busy) + if again then 1 else 0
      ensures granted ==>
        && OneCall(old(texts.state.db.table.value), StageCall(token, BeginFallback(task, true)),
                   texts.state.db.table.value, texts.state.db.clock, texts.state.db.horizon, true)
        && slotClaims == old(slotClaims) + [texts.state.db.table.value.job.fallbackAttempts]
        && old(texts.state.db.table.value.job.fallbackAttempts) == 0
        && texts.state.db.table.value.job.fallbackAttempts == FALLBACK_LIMIT
        && texts.state.db.table.value.job.fallbackTask == Some(task)
      ensures !granted ==>
        && slotClaims == old(slotClaims)
        // a further try is made exactly while only the slot is missing
        && (again <==> Applies(StageCall(token, BeginFallback(task, true)), texts.state.db.table.value,
                               texts.state.db.clock, texts.state.db.horizon))
    {
      hide Inv, Named, Step, Applies, Evolves;
      var db := texts.state.db;
      ghost var t := db.table.value;
      Pause();
      var slot: bool := *;
      ghost var c := StageCall(token, BeginFallback(task, slot));
      LaterStep(t, db.table.value, c, db.clock, db.horizon);
      StepNamed(c, db.table.value, db.clock, db.horizon);
      SlotSets(db.table.value, token, task, slot, db.clock, db.horizon);
      Attempts(t, db.table.value);
      granted, again := limiter.BeginFallbackGeneration(token, task, slot);
      if granted { slotClaims := slotClaims + [db.table.value.job.fallbackAttempts]; }
      if again { busy := busy + 1; }
      if !granted && !again { misses := misses + 1; }
    }

    lemma SlotSets(t: Table, token: Token, task: TaskId, slot: bool, now: Time, horizon: Time)
      requires Inv(t)
      ensures var c, free := StageCall(token, BeginFallback(task, slot)), StageCall(token, BeginFallback(task, true));
              var t' := Step(c, t, now, horizon);
              && (!Applies(c, t, now, horizon) ==> t' == t)
              && (Applies(c, t, now, horizon) ==>
                    && slot && t.job.fallbackAttempts == 0 && t'.job.fallbackAttempts == FALLBACK_LIMIT
                    && t'.job.fallbackTask == Some(task))
    {}

    lemma RecordedIsValid(t: Table)
      requires Inv(t) && Named(t.job, resultKey) && t.job.fallbackKey.Some?
      ensures ValidKey(resultKey)
    {
      hide ValidKey;
    }

    method RecordImage(token: Token) returns (recorded: bool, ghost applied: bool)
      requires Ready()
      modifies texts.state.db`table, texts.state.db`clock, `misses
      ensures Ready() && Later(old(texts.state.db.table.value), texts.state.db.table.value)
      ensures OneCall(old(texts.state.db.table.value), StageCall(token, RecordFallbackImage(resultKey)),
                      texts.state.db.table.value, texts.state.db.clock, texts.state.db.horizon, applied)
      ensures misses == old(misses) + if recorded then 0 else 1
      ensures recorded ==> texts.state.db.table.value.job.fallbackKey == Some(resultKey)
      // an image on record is not waited for
      ensures !recorded ==>
        var j := texts.state.db.table.value.job;
        j.fallbackKey.None? || !LeaseValid(j, token, texts.state.db.clock)
    {
      hide Inv, Evolves, Step, Applies, ValidKey;
      var db := texts.state.db;
      ghost var t := db.table.value;
      Pause();
      ghost var c := StageCall(token, RecordFallbackImage(resultKey));
      LaterStep(t, db.table.value, c, db.clock, db.horizon);
      StepNamed(c, db.table.value, db.clock, db.horizon);
      CallSets(c, db.table.value, token, db.clock, db.horizon);
      if db.table.value.job.fallbackKey.Some? { RecordedIsValid(db.table.value); }
      var change := texts.state.RecordFallbackImageKey(token, resultKey);
      applied := change.applied;
      recorded := change.applied || change.reason == AlreadyThere;
      if !recorded { misses := misses + 1; }
    }

    /** A failure to store as the job's result; one already there is left as it is. */
    method Fail(token: Token, code: string, message: string) returns (outcome: Outcome, ghost applied: bool)
      requires Ready()
      modifies texts.state.db`table, texts.state.db`clock, `misses
      ensures Ready() && Later(old(texts.state.db.table.value), texts.state.db.table.value)
      ensures FailCalled(old(texts.state.db.table.value), token, code, message, texts.state.db.table.value,
                         texts.state.db.clock, applied)
      ensures misses == old(misses) + if outcome.Deferred? then 1 else 0
      ensures outcome.ResultSaved? || outcome.Deferred?
      ensures outcome.ResultSaved? ==> texts.state.db.table.value.job.payload.Some?
      // a result that is there already is not waited for
      ensures applied ==> outcome.ResultSaved?
      ensures outcome.Deferred? && WellFormed(FailedResult(old(texts.state.db.table.value.job.id), code, message)) ==>
        var j := texts.state.db.table.value.job; j.payload.None? || !LeaseValid(j, token, texts.state.db.clock)
    {
      hide Inv, Evolves, Named, Step, Applies, WellFormed;
      var db := texts.state.db;
      ghost var t := db.table.value;
      Pause();
      texts.LaterKeeps(t, db.table.value);
      var p := FailedResult(db.table.value.job.id, code, message);
      ghost var c := ResultCall(token, Save(p, None));
      LaterStep(t, db.table.value, c, db.clock, db.horizon);
      StepNamed(c, db.table.value, db.clock, db.horizon);
      CallSets(c, db.table.value, token, db.clock, db.horizon);
      var saved := texts.state.SaveFinalResult(token, p, None);
      applied := saved.applied;
      outcome := if saved.applied || saved.reason == AlreadyThere then ResultSaved else Deferred;
      if outcome.Deferred? { misses := misses + 1; }
    }

    /** The one call made was to store this failure. */
    ghost predicate FailCalled(before: Table, token: Token, code: string, message: string, after: Table, now: Time,
                               applied: bool)
      reads texts.state.db
    {
      OneCall(before, ResultCall(token, Save(FailedResult(before.job.id, code, message), None)), after, now,
              texts.state.db.horizon, applied)
    }

    /** A check that does not let the generation go ahead ends the call. */
    method Checked(token: Token) returns (stop: Option<Outcome>, ghost applied: bool)
      requires Ready()
      modifies texts.state.db`table, texts.state.db`clock, `misses, `checks
      ensures Ready() && Later(old(texts.state.db.table.value), texts.state.db.table.value)
      ensures |checks| == |old(checks)| + 1 && checks[..|old(checks)|] == old(checks)
      ensures match checks[|old(checks)|]
        case Fine => stop.None?
        case Postponed => stop == Some(Deferred) && texts.state.db.table == old(texts.state.db.table)
        case Refused(code, message) =>
          stop.Some? && FailCalled(old(texts.state.db.table.value), token, code, message, texts.state.db.table.value,
                                   texts.state.db.clock, applied)
      ensures stop.None? ==> Obstacles() == old(Obstacles())
      ensures old(Obstacles()) <= Obstacles()
      ensures stop.Some? ==> stop.value.Deferred? || stop.value.ResultSaved?
      ensures stop == Some(Deferred) ==> old(Obstacles()) < Obstacles()
      ensures stop.Some? && stop.value.ResultSaved? ==> texts.state.db.table.value.job.payload.Some?
    {
      LaterReflexive(texts.state.db.table.value);
      hide Inv, Evolves, Named, FailCalled;
      ghost var before := checks;
      var check := CheckInput();
      assert checks[..|before|] == before;
      stop, applied := None, false;
      match check {
        case Fine =>
        case Postponed => stop := Some(Deferred);
        case Refused(code, message) =>
          var outcome;
          outcome, applied := Fail(token, code, message);
          stop := Some(outcome);
      }
    }

    /** Wait for a slot, as long as nothing else stops the call. */
    method AwaitSlot(token: Token, task: TaskId, waits: nat) returns (granted: bool, stop: Outcome)
      requires Ready()
      modifies texts.state.db`table, texts.state.db`clock, `slotClaims, `misses, `busy, `checks, texts.outside`halts
      ensures Ready() && Later(old(texts.state.db.table.value), texts.state.db.table.value)
      ensures granted ==> Obstacles() == old(Obstacles())
      ensures old(Obstacles()) <= Obstacles()
      ensures granted ==>
        && old(texts.state.db.table.value.job.fallbackAttempts) == 0
        && texts.state.db.table.value.job.fallbackAttempts == FALLBACK_LIMIT
        && texts.state.db.table.value.job.fallbackTask == Some(task)
        && slotClaims == old(slotClaims) + [FALLBACK_LIMIT]
      ensures !granted ==> slotClaims == old(slotClaims) && (stop.Deferred? || stop.ResultSaved?)
      // waiting ends early only for a reason
      ensures !granted && stop.Deferred? ==> old(Obstacles()) < Obstacles() || busy == old(busy) + waits
      ensures !granted && stop.ResultSaved? ==> texts.state.db.table.value.job.payload.Some?
    {
      hide Inv, Evolves, Named, OneCall, Applies, FailCalled;
      var db := texts.state.db;
      ghost var t, slots, obstacles, first := db.table.value, slotClaims, Obstacles(), busy;
      LaterReflexive(t);
      granted, stop := false, Deferred;
      var waited := 0;
      while waited < waits
        invariant Ready() && Later(t, db.table.value) && slotClaims == slots && !granted && stop.Deferred?
        invariant obstacles == Obstacles() && busy == first + waited && waited <= waits
      {
        var go := texts.outside.MayContinue();
        if !go { return; }
        ghost var t1 := db.table.value;
        var recheck: bool := *;
        if recheck {
          ghost var applied;
          var refused;
          refused, applied := Checked(token);
          LaterTransitive(t, t1, db.table.value);
          if refused.Some? { stop := refused.value; return; }
        }
        ghost var t2 := db.table.value;
        var again;
        granted, again := TakeSlot(token, task);
        Attempts(t, t2);
        LaterTransitive(t, t2, db.table.value);
        if granted || !again { return; }
        waited := waited + 1;
      }
    }

    /** What an answer without an image leads to: a failure result, or nothing that could be repeated. */
    method AfterError(token: Token, answer: TryOnAnswer) returns (outcome: Outcome, ghost applied: bool)
      requires Ready()
      modifies texts.state.db`table, texts.state.db`clock, `misses
      ensures Ready() && Later(old(texts.state.db.table.value), texts.state.db.table.value)
      ensures outcome.Deferred? || outcome.ResultSaved?
      ensures outcome.ResultSaved? ==>
        (answer.BalanceGone? || answer.Rejected?) && texts.state.db.table.value.job.payload.Some?
      ensures answer.BalanceGone? ==>
        FailCalled(old(texts.state.db.table.value), token, "FITTING_BALANCE_EXHAUSTED",
                   "현재 가상 피팅 서비스를 이용할 수 없습니다. 잠시 후 다시 시도해주세요.", texts.state.db.table.value,
                   texts.state.db.clock, applied)
      ensures answer.Rejected? ==>
        FailCalled(old(texts.state.db.table.value), token, "FITTING_MODEL_FAILED", "가상 피팅 이미지 생성에 실패했습니다.",
                   texts.state.db.table.value, texts.state.db.clock, applied)
      ensures old(Obstacles()) <= Obstacles()
      ensures outcome.Deferred? && (answer.BalanceGone? || answer.Rejected?) ==> old(Obstacles()) < Obstacles()
      // an unclear answer or a refused key changes nothing, and so keeps the slot spent
      ensures answer.Unknown? || answer.AuthRefused? ==> texts.state.db.table == old(texts.state.db.table)
    {
      LaterReflexive(texts.state.db.table.value);
      hide Inv, Evolves, Named, FailCalled, Postponements;
      outcome, applied := Deferred, false;
      if answer.BalanceGone? { outcome, applied := Fail(token, BALANCE_CODE, BALANCE_MESSAGE); }
      if answer.Rejected? { outcome, applied := Fail(token, MODEL_CODE, MODEL_MESSAGE); }
    }

    /** Everything before the generation: the checks, the task on record, and its slot. */
    method GetSlot(token: Token, drawn: TaskId, waits: nat) returns (task: Option<TaskId>, stop: Outcome)
      requires Ready()
      modifies texts.state.db`table, texts.state.db`clock, `slotClaims, `misses, `busy, `checks, texts.outside`halts
      ensures Ready() && Later(old(texts.state.db.table.value), texts.state.db.table.value)
      ensures task.Some? ==> Obstacles() == old(Obstacles())
      ensures old(Obstacles()) <= Obstacles()
      ensures task.Some? ==>
        && old(texts.state.db.table.value.job.fallbackAttempts) == 0
        && texts.state.db.table.value.job.fallbackAttempts == FALLBACK_LIMIT
        && texts.state.db.table.value.job.fallbackTask == task
        && slotClaims == old(slotClaims) + [FALLBACK_LIMIT]
      ensures task.None? ==> slotClaims == old(slotClaims) && (stop.Deferred? || stop.ResultSaved?)
      ensures task.None? && stop.Deferred? ==> old(Obstacles()) < Obstacles() || busy == old(busy) + waits
      ensures task.None? && stop.ResultSaved? ==> texts.state.db.table.value.job.payload.Some?
    {
      hide Inv, Evolves, Named, OneCall, FailCalled, Postponements;
      var db := texts.state.db;
      ghost var t := db.table.value;
      LaterReflexive(t);
      task, stop := None, Deferred;
      var go := texts.outside.MayContinue();
      if !go { return; }
      ghost var applied;
      var refused;
      refused, applied := Checked(token);
      ghost var t1 := db.table.value;
      if refused.Some? { stop := refused.value; return; }
      var prepared;
      prepared, applied := PrepareTask(token, drawn);
      ghost var t2 := db.table.value;
      LaterTransitive(t, t1, t2);
      if prepared.None? { return; }
      var granted;
      granted, stop := AwaitSlot(token, prepared.value, waits);
      LaterTransitive(t, t2, db.table.value);
      Attempts(t, t2);
      if granted { task := prepared; }
    }

    /** The generation, its storage and its record; calls are the generations asked for. */
    method Generate(token: Token, drawn: TaskId, waits: nat)
      returns (image: Option<Key>, stop: Outcome, ghost calls: seq<TryOnCall>)
      requires Ready()
      modifies texts.state.db`table, texts.state.db`clock, `slotClaims, `misses, `busy, `checks
      modifies texts.outside`tryOns, texts.outside`stores, texts.outside`halts
      ensures Ready() && Later(old(texts.state.db.table.value), texts.state.db.table.value)
      ensures Asked(old(texts.outside.tryOns), old(slotClaims), texts.outside.tryOns, slotClaims, calls)
      ensures calls != [] ==>
        Spent(old(texts.state.db.table.value.job), texts.state.db.table.value.job, calls[0])
      ensures image.Some? ==>
        && image.value == resultKey && texts.state.db.table.value.job.fallbackKey == image
        && calls != [] && calls[0].answer.Image?
        && texts.outside.stores == old(texts.outside.stores) + [StoreCall(resultKey, true)]
      ensures image.None? ==> stop.Deferred? || stop.ResultSaved?
      ensures image.None? && stop.ResultSaved? ==> texts.state.db.table.value.job.payload.Some?
      ensures calls == [] ==> image.None? && texts.outside.stores == old(texts.outside.stores)
      // it is put off only for a reason
      ensures image.Some? ==> Obstacles() == old(Obstacles())
      ensures old(Obstacles()) <= Obstacles()
      ensures image.None? && stop.Deferred? ==>
        || old(Obstacles()) < Obstacles() || busy == old(busy) + waits
        || NoGeneration(calls, old(texts.outside.stores), texts.outside.stores)
    {
      hide Inv, Evolves, Named, OneCall, FailCalled, Postponements;
      var db := texts.state.db;
      ghost var t := db.table.value;
      var task;
      image, calls := None, [];
      task, stop := GetSlot(token, drawn, waits);
      ghost var t1 := db.table.value;
      if task.None? { return; }
      var answer := texts.outside.TryOn(FALLBACK_LIMIT, task.value);
      calls, stop := [TryOnCall(FALLBACK_LIMIT, task.value, answer)], Deferred;
      ghost var applied;
      if !answer.Image? {
        stop, applied := AfterError(token, answer);
      } else {
        var stored := texts.outside.StoreObject(resultKey);
        if stored {
          var recorded;
          recorded, applied := RecordImage(token);
          if recorded { image := Some(resultKey); }
        } else {
          LaterReflexive(t1);
        }
      }
      LaterTransitive(t, t1, db.table.value);
      Attempts(t1, db.table.value);
    }

    /** No image came of the request: nothing is known of it, the key was refused, or the image could not be stored. */
    predicate NoGeneration(calls: seq<TryOnCall>, stores: seq<StoreCall>, stores': seq<StoreCall>) {
      calls != []
      && (|| calls[0].answer.Unknown? || calls[0].answer.AuthRefused?
          || (calls[0].answer.Image? && stores' == stores + [StoreCall(resultKey, false)]))
    }

    lemma Attempts(t: Table, t': Table)
      requires Later(t, t')
      ensures t.job.fallbackAttempts <= t'.job.fallbackAttempts <= FALLBACK_LIMIT
      ensures Kept(t.job.fallbackTask, t'.job.fallbackTask)
    {}

    lemma KeyIsNamed(j: Job)
      requires Named(j, resultKey)
      ensures j.fallbackKey.Some? ==> j.fallbackKey == Some(resultKey)
    {}

    lemma NothingTold()
      ensures texts.Told([], [], Default, Default)
    {}

    lemma NothingAsked(log: seq<TryOnCall>, slots: seq<nat>)
      ensures Asked(log, slots, log, slots, [])
    {}

    lemma SpentLater(before: Job, t: Table, t': Table, call: TryOnCall)
      requires Spent(before, t.job, call) && Later(t, t')
      ensures Spent(before, t'.job, call)
    {
      Attempts(t, t');
    }

    /** Title, comment and result for the recorded fallback image. */
    method Describe(token: Token, described: bool)
      returns (outcome: Outcome, applied: bool, title: Text, comment: Text,
               ghost commentCalls: seq<TextCall>, ghost titleCalls: seq<TextCall>)
      requires Ready() && texts.state.db.table.value.job.fallbackKey == Some(resultKey)
      modifies texts.state.db`table, texts.state.db`clock, texts`textClaims, texts`misses, texts.outside`texts
      modifies texts.outside`halts, texts.outside`urls
      ensures texts.state.db.table.Some? && Later(old(texts.state.db.table.value), texts.state.db.table.value)
      ensures texts.Excused(old(texts.outside.halts), old(texts.misses), texts.outside.halts, texts.misses,
                            Some(outcome), texts.state.db.table.value.job)
      ensures texts.Told(commentCalls, titleCalls, comment, title)
      ensures texts.Logged(old(texts.outside.texts), old(texts.textClaims), texts.outside.texts, texts.textClaims,
                           commentCalls + titleCalls, old(texts.state.db.table.value.job.llmAttempts),
                           texts.state.db.table.value.job.llmAttempts)
      ensures |commentCalls| + |titleCalls| <= LLM_GENERATION_LIMIT - old(texts.state.db.table.value.job.llmAttempts)
      ensures outcome.ResultSaved? ==> texts.state.db.table.value.job.payload.Some?
      ensures applied ==>
        var j := texts.state.db.table.value.job;
        && j.fallbackKey == Some(resultKey)
        && j.payload == Some(CompletedResult(j.id, resultKey, TitleText(title), CommentText(comment)))
        && texts.outside.halts == old(texts.outside.halts) && texts.misses == old(texts.misses)
    {
      hide Inv, Evolves, TitleText, CommentText, texts.Told, texts.Logged;
      var db := texts.state.db;
      ghost var t := db.table.value;
      applied := false;
      var stop;
      title, comment, stop, commentCalls, titleCalls := texts.TitleAndComment(token, resultKey, described);
      ghost var t1, log, claims := db.table.value, texts.outside.texts, texts.textClaims;
      texts.LaterKeeps(t, t1);
      outcome := if stop.Some? then stop.value else Deferred;
      var go := texts.outside.MayContinue();
      if stop.Some? || !go { return; }
      outcome, applied := texts.SaveCompleted(token, resultKey, title, comment);
      LaterTransitive(t, t1, db.table.value);
      texts.LaterKeeps(t1, db.table.value);
      texts.LoggedLater(old(texts.outside.texts), old(texts.textClaims), log, claims, commentCalls + titleCalls,
                        t.job.llmAttempts, t1.job.llmAttempts, db.table.value.job.llmAttempts);
    }

    /** The whole handler on the row the lease grant returned. */
    method Handle(token: Token, job: Job, drawn: TaskId, waits: nat, described: bool)
      returns (outcome: Outcome, applied: bool, title: Text, comment: Text, ghost calls: seq<TryOnCall>,
               ghost commentCalls: seq<TextCall>, ghost titleCalls: seq<TextCall>)
      requires Ready() && job == texts.state.db.table.value.job
      modifies texts.state.db`table, texts.state.db`clock, `slotClaims, `misses, `busy, `checks
      modifies texts`textClaims, texts`misses
      modifies texts.outside`tryOns, texts.outside`stores, texts.outside`texts, texts.outside`halts
      modifies texts.outside`urls
      ensures texts.state.db.table.Some? && Later(old(texts.state.db.table.value), texts.state.db.table.value)
      ensures Asked(old(texts.outside.tryOns), old(slotClaims), texts.outside.tryOns, slotClaims, calls)
      ensures calls != [] ==>
        && job.payload.None? && job.fallbackKey.None? && job.fallbackStartedAt.None?
        && Spent(job, texts.state.db.table.value.job, calls[0])
      ensures texts.Told(commentCalls, titleCalls, comment, title)
      ensures texts.Logged(old(texts.outside.texts), old(texts.textClaims), texts.outside.texts, texts.textClaims,
                           commentCalls + titleCalls, job.llmAttempts, texts.state.db.table.value.job.llmAttempts)
      ensures |commentCalls| + |titleCalls| <= LLM_GENERATION_LIMIT - job.llmAttempts
      ensures outcome.ResultSaved? ==> texts.state.db.table.value.job.payload.Some?
      // a success names the fallback image the row records, with the texts the calls gave
      ensures applied ==>
        var j := texts.state.db.table.value.job;
        && j.fallbackKey == Some(resultKey)
        && j.payload == Some(CompletedResult(job.id, resultKey, TitleText(title), CommentText(comment)))
        // and a reason to stop is heeded
        && Obstacles() == old(Obstacles())
      ensures job.payload.Some? ==> outcome.DoneAlready? && calls == [] && commentCalls == []
      ensures outcome.DoneAlready? ==> texts.state.db.table.value.job.payload.Some?
      // a fallback that is spent is not tried again
      ensures job.payload.None? && job.fallbackKey.None?
              && (job.fallbackStartedAt.Some? || job.fallbackAttempts >= FALLBACK_LIMIT) ==>
        outcome.Deferred? && calls == [] && checks == old(checks) && texts.state.db.table == old(texts.state.db.table)
      // the work is put off only for a reason: something stopped it, or a generation is spent without an image
      ensures outcome.Deferred? ==>
        || old(Obstacles()) < Obstacles() || busy == old(busy) + waits
        || (job.fallbackKey.None? && (job.fallbackStartedAt.Some? || job.fallbackAttempts >= FALLBACK_LIMIT))
        || NoGeneration(calls, old(texts.outside.stores), texts.outside.stores)
    {
      hide Inv, Evolves, Named, Asked, Spent, TitleText, CommentText, texts.Told, texts.TextFrom, texts.Logged;
      hide Postponements, NoGeneration;
      KeyIsNamed(job);
      var db := texts.state.db;
      ghost var t := db.table.value;
      LaterReflexive(t);
      texts.LaterKeeps(t, t);
      outcome, applied, title, comment, calls := DoneAlready, false, Default, Default, [];
      commentCalls, titleCalls := [], [];
      NothingAsked(texts.outside.tryOns, slotClaims);
      texts.NothingLogged(texts.outside.texts, texts.textClaims, None, t.job.llmAttempts, t.job.llmAttempts);
      assert commentCalls + titleCalls == [];
      NothingTold();
      if job.payload.Some? { return; }
      outcome := Deferred;
      var image := job.fallbackKey;
      if image.None? {
        if job.fallbackStartedAt.Some? || job.fallbackAttempts >= FALLBACK_LIMIT { return; }
        image, outcome, calls := Generate(token, drawn, waits);
      }
      ghost var t1 := db.table.value;
      texts.LaterKeeps(t, t1);
      texts.NothingLogged(texts.outside.texts, texts.textClaims, None, t.job.llmAttempts, t1.job.llmAttempts);
      if image.None? { return; }
      ghost var log, claims := texts.outside.texts, texts.textClaims;
      outcome, applied, title, comment, commentCalls, titleCalls := Describe(token, described);
      LaterTransitive(t, t1, db.table.value);
      texts.LaterKeeps(t1, db.table.value);
      texts.LoggedBoth(log, claims, log, claims, [], texts.outside.texts, texts.textClaims, commentCalls + titleCalls,
                       t.job.llmAttempts, t1.job.llmAttempts, db.table.value.job.llmAttempts);
      assert [] + (commentCalls + titleCalls) == commentCalls + titleCalls;
      if calls != [] { SpentLater(t.job, t1, db.table.value, calls[0]); }
    }
  }
}
