/** Properties of the orchestrator model in `Run`. */
module RunProperties {
  import opened Base
  import opened Text
  import opened Externals
  import PrepareConfig
  import opened Run

  // ---------------------------------------------------------------- the summary text

  /** The shape shared by both summary texts: the digits of `n`, then `word`, then an `s`
      unless `n` is 1. */
  lemma CountedWord(n: nat, word: string)
    requires |word| > 0 && !IsDigit(word[0]) && word[|word| - 1] != 's'
    ensures
      var s := NatToString(n) + word + Plural(n);
      var d := DigitRun(s);
      && AllDigits(s[..d]) && DecimalValue(s[..d]) == n
      && d + |word| <= |s| && s[d..d + |word|] == word
      && |s| == d + |word| + (if n == 1 then 0 else 1)
      && (s[|s| - 1] == 's' <==> n != 1)
  {
    var digits := NatToString(n);
    var rest := word + Plural(n);
    var s := digits + rest;
    assert NatToString(n) + word + Plural(n) == s;
    DigitRunOfConcat(digits, rest);
    assert s[..|digits|] == digits;
    assert s[|digits|..|digits| + |word|] == word;
    DecimalRoundTrip(n);
    if n == 1 {
      assert s[|s| - 1] == word[|word| - 1];
    } else {
      assert s[|s| - 1] == 's';
    }
  }

  /** The failure text is empty exactly when nothing failed; otherwise it starts with the decimal
      digits of the count, followed by " failure", and ends in 's' unless the count is 1. */
  lemma FailureStringMeaning(n: nat)
    ensures FailureString(n) == "" <==> n == 0
    ensures n > 0 ==>
      var s := FailureString(n);
      var d := DigitRun(s);
      && AllDigits(s[..d]) && DecimalValue(s[..d]) == n
      && s[d..d + 8] == " failure"
      && |s| == d + 8 + (if n == 1 then 0 else 1)
      && (s[|s| - 1] == 's' <==> n != 1)
  {
    if n > 0 {
      CountedWord(n, " failure");
    }
  }

  /** The completed text is never empty (so its line is always printed); it starts with the
      decimal digits of the count, followed by " completed job", and ends in 's' unless the count
      is 1. */
  lemma CompletedStringMeaning(n: nat)
    ensures |CompletedString(n)| > 0
    ensures
      var s := CompletedString(n);
      var d := DigitRun(s);
      && AllDigits(s[..d]) && DecimalValue(s[..d]) == n
      && s[d..d + 14] == " completed job"
      && |s| == d + 14 + (if n == 1 then 0 else 1)
      && (s[|s| - 1] == 's' <==> n != 1)
  {
    CountedWord(n, " completed job");
  }

  lemma DropLead(p: string, x: string, y: string)
    requires p + x == p + y
    ensures x == y
  {
    assert x == (p + x)[|p|..];
    assert y == (p + y)[|p|..];
  }

  /** Different completed counts render differently. */
  lemma CompletedStringInjective(c1: nat, c2: nat)
    requires CompletedString(c1) == CompletedString(c2)
    ensures c1 == c2
  {
    assert CompletedString(c1) == NatToString(c1) + (" completed job" + Plural(c1));
    assert CompletedString(c2) == NatToString(c2) + (" completed job" + Plural(c2));
    DigitsPrefixUnique(NatToString(c1), " completed job" + Plural(c1), NatToString(c2), " completed job" + Plural(c2));
    NatToStringInjective(c1, c2);
  }

  /** Different positive failure counts render differently. */
  lemma FailureStringInjective(f1: nat, f2: nat)
    requires f1 > 0 && f2 > 0 && FailureString(f1) == FailureString(f2)
    ensures f1 == f2
  {
    assert FailureString(f1) == NatToString(f1) + (" failure" + Plural(f1));
    assert FailureString(f2) == NatToString(f2) + (" failure" + Plural(f2));
    DigitsPrefixUnique(NatToString(f1), " failure" + Plural(f1), NatToString(f2), " failure" + Plural(f2));
    NatToStringInjective(f1, f2);
  }

  /** The summary determines both counters. */
  lemma EndMessageInjective(c1: nat, f1: nat, c2: nat, f2: nat)
    requires EndMessage(c1, f1) == EndMessage(c2, f2)
    ensures c1 == c2 && f1 == f2
  {
    var m1, m2 := EndMessage(c1, f1), EndMessage(c2, f2);
    assert m1[3] == m2[3];
    DropLead(" - ", CompletedString(c1), CompletedString(c2));
    CompletedStringInjective(c1, c2);
    assert |m1| == |m2|;
    if f1 > 0 {
      assert m1[4] == m2[4];
      DropLead(" - ", FailureString(f1), FailureString(f2));
      FailureStringInjective(f1, f2);
    }
  }

  // ---------------------------------------------------------------- traces

  /** `w'` is `w` with some database writes and sleeps appended to its trace. */
  predicate Extends(w: World, w': World) {
    && |w.trace| <= |w'.trace| && w'.trace[..|w.trace|] == w.trace
    && forall k :: |w.trace| <= k < |w'.trace| ==> w'.trace[k].Wrote? || w'.trace[k] == Slept
  }

  lemma ExtendsTrans(a: World, b: World, c: World)
    requires Extends(a, b) && Extends(b, c)
    ensures Extends(a, c)
  {
    assert c.trace[..|a.trace|] == c.trace[..|b.trace|][..|a.trace|];
    forall k | |a.trace| <= k < |c.trace|
      ensures c.trace[k].Wrote? || c.trace[k] == Slept
    {
      if k < |b.trace| {
        assert c.trace[k] == c.trace[..|b.trace|][k];
      }
    }
  }

  /** Every write appended between `w` and `w'` is `wr`. */
  predicate WritesOnly(w: World, w': World, wr: Write)
    requires |w.trace| <= |w'.trace|
  {
    forall k :: |w.trace| <= k < |w'.trace| && w'.trace[k].Wrote? ==> w'.trace[k].w == wr
  }

  lemma WritesOnlyTrans(a: World, b: World, c: World, wr: Write)
    requires Extends(a, b) && Extends(b, c) && WritesOnly(a, b, wr) && WritesOnly(b, c, wr)
    ensures Extends(a, c) && WritesOnly(a, c, wr)
  {
    ExtendsTrans(a, b, c);
    forall k | |a.trace| <= k < |c.trace| && c.trace[k].Wrote?
      ensures c.trace[k].w == wr
    {
      if k < |b.trace| {
        assert c.trace[k] == c.trace[..|b.trace|][k];
      }
    }
  }

  // ---------------------------------------------------------------- the two update loops

  /** Changing a status keeps every `_id`, so the first model with a given `_id` stays where it was. */
  lemma FirstByIdSetStatus(models: seq<ModelDoc>, i: nat, status: ModelStatus, modelId: string)
    ensures FirstById(SetStatusAt(models, i, status), modelId) == FirstById(models, modelId)
  {
    var models' := SetStatusAt(models, i, status);
    assert forall j :: 0 <= j < |models| ==> models'[j].id == models[j].id;
  }

  /** The model-ready update is idempotent: a second one changes nothing more. */
  lemma ReadyTwice(models: seq<ModelDoc>, modelId: string)
    ensures var r := SetStatusAt(models, FirstById(models, modelId), Ready);
      SetStatusAt(r, FirstById(r, modelId), Ready) == r
  {
    FirstByIdSetStatus(models, FirstById(models, modelId), Ready, modelId);
  }

  /** Between `w` and `w'` only sleeps and model-ready updates of `modelId` were appended, so
      tasks and upload records are as they were, and the models are either untouched or read
      as after one model-ready update. */
  predicate ReadyOnly(w: World, w': World, modelId: string) {
    && Extends(w, w')
    && WritesOnly(w, w', UpdateModelById(modelId, Ready))
    && w'.coll.tasks == w.coll.tasks && w'.coll.uploads == w.coll.uploads
    && (w'.coll.models == w.coll.models || w'.coll.models == SetStatusAt(w.coll.models, FirstById(w.coll.models, modelId), Ready))
  }

  lemma ReadyOnlyTrans(a: World, b: World, c: World, modelId: string)
    requires ReadyOnly(a, b, modelId) && ReadyOnly(b, c, modelId)
    ensures ReadyOnly(a, c, modelId)
  {
    WritesOnlyTrans(a, b, c, UpdateModelById(modelId, Ready));
    ReadyTwice(a.coll.models, modelId);
  }

  /** One model-ready update, successful or not. */
  lemma ReadyWriteStep(faults: seq<bool>, w: World, modelId: string)
    ensures var (ok, w1) := WriteStep(faults, w, UpdateModelById(modelId, Ready));
      && ReadyOnly(w, w1, modelId)
      && ok == !WriteFails(faults, w.writes)
      && w1.trace == w.trace + [Wrote(UpdateModelById(modelId, Ready), ok)]
  {
    var (ok, w1) := WriteStep(faults, w, UpdateModelById(modelId, Ready));
    assert w1.trace[..|w.trace|] == w.trace;
  }

  lemma SleepReadyOnly(w: World, modelId: string)
    ensures ReadyOnly(w, Sleep(w), modelId)
  {
    assert Sleep(w).trace[..|w.trace|] == w.trace;
  }

  /** The model-ready loop never falls off its end: it returns after a successful update or
      raises the database error. It appends only model-ready updates and sleeps, so it touches
      neither tasks nor uploads. */
  lemma {:induction false} ModelLoopEnds(attempt: nat, modelId: string, faults: seq<bool>, w: World)
    requires attempt < 3
    ensures var (flow, w') := ModelLoop(attempt, modelId, faults, w);
      && (flow == Return || flow == Throw(DatabaseError))
      && ReadyOnly(w, w', modelId)
      && (flow == Return ==> |w.trace| < |w'.trace| && w'.trace[|w'.trace| - 1] == Wrote(UpdateModelById(modelId, Ready), true))
      && (flow == Return ==> w'.coll.models == SetStatusAt(w.coll.models, FirstById(w.coll.models, modelId), Ready))
    decreases 3 - attempt
  {
    var ready := UpdateModelById(modelId, Ready);
    var (ok, w1) := WriteStep(faults, w, ready);
    ReadyWriteStep(faults, w, modelId);
    if !ok && attempt < 2 {
      var ws := Sleep(w1);
      SleepReadyOnly(w1, modelId);
      ReadyOnlyTrans(w, w1, ws, modelId);
      var (ok2, w2) := WriteStep(faults, ws, ready);
      ReadyWriteStep(faults, ws, modelId);
      ReadyOnlyTrans(w, ws, w2, modelId);
      if ok2 {
        ModelLoopEnds(attempt + 1, modelId, faults, w2);
        var (flow, w') := ModelLoop(attempt + 1, modelId, faults, w2);
        ReadyOnlyTrans(w, w2, w', modelId);
        ReadyTwice(w.coll.models, modelId);
      }
    }
  }

  /** The task-completed loop after its first update failed: the same update again outside the
      `try`, then either the database error or the model-ready loop, which does not fall through. */
  lemma TaskLoopRetried(taskId: Option<string>, key: string, modelId: string, faults: seq<bool>, w: World)
    requires WriteFails(faults, w.writes)
    ensures var (flow, w') := TaskLoop(0, taskId, key, modelId, faults, w);
      var done := UpdateTask(taskId, MarkCompleted(CompletedResult(key)));
      var n := |w.trace|;
      && (flow == Return || flow == Throw(DatabaseError))
      && Extends(w, w')
      && w'.coll.uploads == w.coll.uploads
      && n + 3 <= |w'.trace|
      && w'.trace[n..n + 3] == [Wrote(done, false), Slept, Wrote(done, !WriteFails(faults, w.writes + 1))]
      && (WriteFails(faults, w.writes + 1) ==> flow == Throw(DatabaseError) && n + 3 == |w'.trace|)
      && (forall k :: n + 3 <= k < |w'.trace| && w'.trace[k].Wrote? ==> w'.trace[k].w == UpdateModelById(modelId, Ready))
      && (!WriteFails(faults, w.writes + 1) ==> w'.coll.tasks == Apply(w.coll, done).tasks)
      && (w'.coll.models == w.coll.models || w'.coll.models == SetStatusAt(w.coll.models, FirstById(w.coll.models, modelId), Ready))
      && (flow == Return ==> w'.coll.models == SetStatusAt(w.coll.models, FirstById(w.coll.models, modelId), Ready))
  {
    var done := UpdateTask(taskId, MarkCompleted(CompletedResult(key)));
    var (ok, w1) := WriteStep(faults, w, done);
    var (ok2, w2) := WriteStep(faults, Sleep(w1), done);
    assert w2.trace == w.trace + [Wrote(done, false), Slept, Wrote(done, ok2)];
    assert w2.trace[..|w.trace|] == w.trace;
    assert Extends(w, w2);
    assert w2.coll.uploads == w.coll.uploads;
    if ok2 {
      ModelLoopEnds(0, modelId, faults, w2);
      var (flow, w3) := ModelLoop(0, modelId, faults, w2);
      assert TaskLoop(0, taskId, key, modelId, faults, w) == (flow, w3);
      ExtendsTrans(w, w2, w3);
      assert w3.trace[..|w2.trace|] == w2.trace;
      assert w3.trace[|w.trace|..|w.trace| + 3] == w2.trace[|w.trace|..];
    } else {
      assert TaskLoop(0, taskId, key, modelId, faults, w) == (Throw(DatabaseError), w2);
      assert w2.trace[|w.trace|..] == [Wrote(done, false), Slept, Wrote(done, ok2)];
    }
  }

  /** The task-completed loop makes one try-block attempt only. If that update succeeds, `main`
      returns with nothing else done: the model-ready update is skipped. Otherwise the same task
      update is issued once more outside the `try` and then only model-ready updates and sleeps
      follow; the loop never reaches its second iteration and never falls off its end. */
  lemma TaskLoopOneAttempt(taskId: Option<string>, key: string, modelId: string, faults: seq<bool>, w: World)
    ensures var (flow, w') := TaskLoop(0, taskId, key, modelId, faults, w);
      var done := UpdateTask(taskId, MarkCompleted(CompletedResult(key)));
      var n := |w.trace|;
      && (flow == Return || flow == Throw(DatabaseError))
      && Extends(w, w')
      && w'.coll.uploads == w.coll.uploads
      && (!WriteFails(faults, w.writes) ==>
            flow == Return && w' == World(Apply(w.coll, done), w.writes + 1, w.trace + [Wrote(done, true)]))
      && (WriteFails(faults, w.writes) ==>
            && n + 3 <= |w'.trace|
            && w'.trace[n..n + 3] == [Wrote(done, false), Slept, Wrote(done, !WriteFails(faults, w.writes + 1))]
            && (WriteFails(faults, w.writes + 1) ==> flow == Throw(DatabaseError) && n + 3 == |w'.trace|)
            && (forall k :: n + 3 <= k < |w'.trace| && w'.trace[k].Wrote? ==> w'.trace[k].w == UpdateModelById(modelId, Ready)))
  {
    if WriteFails(faults, w.writes) {
      TaskLoopRetried(taskId, key, modelId, faults, w);
    } else {
      var done := UpdateTask(taskId, MarkCompleted(CompletedResult(key)));
      var w' := World(Apply(w.coll, done), w.writes + 1, w.trace + [Wrote(done, true)]);
      assert TaskLoop(0, taskId, key, modelId, faults, w) == (Return, w');
      assert w'.trace[..|w.trace|] == w.trace;
    }
  }

  /** On the success path the task record reads completed, progress 100, with the result
      pointing at `https://loras.cheeryclick.com/{key}` in bucket `loras`, no optimized keys and
      `[key]` as the original keys; the models are left as they were. */
  lemma SuccessRecordsResult(taskId: Option<string>, key: string, modelId: string, faults: seq<bool>, w: World)
    requires taskId.Some? && taskId.value in w.coll.tasks
    requires !WriteFails(faults, w.writes)
    ensures var (flow, w') := TaskLoop(0, taskId, key, modelId, faults, w);
      var t := FindTask(w'.coll, taskId);
      && flow == Return
      && t.Some? && t.value.processingStatus == Completed && t.value.progress == 100 && t.value.completed
      && t.value.result.Some?
      && t.value.result.value.modelUrl == "https://loras.cheeryclick.com/" + key
      && t.value.result.value.locationInfo == LocationInfo("loras", [], [key])
      && t.value.userId == w.coll.tasks[taskId.value].userId
      && w'.coll.models == w.coll.models
  {
  }

  // ---------------------------------------------------------------- the try block

  /** A task without a result always raises in the upload branch: a `RuntimeError` from the bare
      `raise` when the artifact is missing, otherwise the `NameError` of the not-yet-defined
      `get_file_as_buffer`. Nothing is written, so `store_file` is never reached. */
  lemma UploadGuardRaises(env: Env, files: map<string, File>, dirs: set<string>, faults: seq<bool>, w: World)
    requires FindTask(w.coll, env.taskId).Some? && FindModelByTask(w.coll, env.taskId).Some?
    requires FindTask(w.coll, env.taskId).value.result.None?
    ensures var path := EnvText(env.rootFolder) + "/output/" + EnvText(env.taskId) + "/" + EnvText(env.taskId) + ".safetensors";
      var (flow, w') := AfterJob(env, files, dirs, faults, w);
      && w' == w
      && (path !in files && path !in dirs ==> flow == Throw(RuntimeError))
      && (path in files || path in dirs ==> flow == Throw(NameError("get_file_as_buffer")))
  {
  }

  /** The rest of the `try` block never falls off its end; it only appends writes and sleeps,
      and never inserts an upload record. It returns only for a task that already has a result
      and a model. */
  lemma AfterJobEnds(env: Env, files: map<string, File>, dirs: set<string>, faults: seq<bool>, w: World)
    ensures var (flow, w') := AfterJob(env, files, dirs, faults, w);
      && flow != FallThrough
      && Extends(w, w')
      && w'.coll.uploads == w.coll.uploads
      && (flow == Return ==>
            && FindTask(w.coll, env.taskId).Some? && FindTask(w.coll, env.taskId).value.result.Some?
            && FindModelByTask(w.coll, env.taskId).Some?)
  {
    var task := FindTask(w.coll, env.taskId);
    var model := FindModelByTask(w.coll, env.taskId);
    if task.Some? && model.Some? && task.value.result.Some? {
      TaskLoopOneAttempt(env.taskId, LoraKey(task.value.userId, model.value.id), model.value.id, faults, w);
    }
  }

  /** On the success path the task record gets the result for the key `{userId}/{modelId}.safetensors`
      of the task's owner and its first model. */
  lemma AfterJobCompletes(env: Env, files: map<string, File>, dirs: set<string>, faults: seq<bool>, w: World)
    requires FindTask(w.coll, env.taskId).Some? && FindTask(w.coll, env.taskId).value.result.Some?
    requires FindModelByTask(w.coll, env.taskId).Some?
    requires !WriteFails(faults, w.writes)
    ensures var (flow, w') := AfterJob(env, files, dirs, faults, w);
      var task := FindTask(w.coll, env.taskId).value;
      var model := FindModelByTask(w.coll, env.taskId).value;
      && flow == Return
      && FindTask(w'.coll, env.taskId) == Some(task.(processingStatus := Completed, progress := 100, completed := true,
           result := Some(CompletedResult(task.userId + "/" + model.id + ".safetensors"))))
      && w'.coll.models == w.coll.models && w'.coll.uploads == w.coll.uploads
  {
  }

  /** The try block for one config: one `JobStarted` event, then only writes and sleeps; it never
      falls off its end, increments `jobs_completed` exactly when the job succeeded, and never
      inserts an upload record. */
  lemma TryBodyEnds(i: nat, config: ConfigRun, env: Env, files: map<string, File>, dirs: set<string>,
                    faults: seq<bool>, completed: nat, w: World)
    ensures var (flow, w', completed') := TryBody(i, config, env, files, dirs, faults, completed, w);
      && flow != FallThrough
      && |w.trace| < |w'.trace| && w'.trace[..|w.trace|] == w.trace && w'.trace[|w.trace|] == JobStarted(i, config.file)
      && (forall k :: |w.trace| < k < |w'.trace| ==> w'.trace[k].Wrote? || w'.trace[k] == Slept)
      && w'.coll.uploads == w.coll.uploads
      && completed' == completed + (if config.job.JobSucceeds? then 1 else 0)
      && (config.job.JobRaises? ==> flow == Throw(JobError(config.job.msg)) && w'.coll == w.coll && w'.writes == w.writes)
  {
    var w0 := w.(trace := w.trace + [JobStarted(i, config.file)]);
    AfterJobEnds(env, files, dirs, faults, w0);
    var (flow, w') := AfterJob(env, files, dirs, faults, w0);
    if config.job.JobSucceeds? {
      assert w'.trace[..|w.trace|] == w'.trace[..|w0.trace|][..|w.trace|];
      assert w'.trace[|w.trace|] == w'.trace[..|w0.trace|][|w.trace|];
    }
  }

  // ---------------------------------------------------------------- the failure branch

  lemma FirstByTaskSetStatus(models: seq<ModelDoc>, i: nat, status: ModelStatus, taskId: string)
    ensures FirstByTask(SetStatusAt(models, i, status), taskId) == FirstByTask(models, taskId)
  {
    var models' := SetStatusAt(models, i, status);
    var a, b := FirstByTask(models, taskId), FirstByTask(models', taskId);
    assert forall j :: 0 <= j < |models| ==> models'[j].taskId == models[j].taskId;
  }

  /** The handler without `--recover` prints the summary first and always raises. A missing task
      record raises the not-found `ValueError` with no write at all; a failing write raises the
      database error; otherwise the task reads failed with `completed = False` and the exception
      as its training log, the first model of the task reads failed, and the exception is
      re-raised. */
  lemma HandlerOutcome(e: Exc, completed: nat, failed: nat, env: Env, faults: seq<bool>, w: World)
    ensures var (exit, w') := Handler(e, completed, failed, env, faults, w);
      var task := FindTask(w.coll, env.taskId);
      var model := FindModelByTask(w.coll, env.taskId);
      && exit.Raised?
      && |w.trace| < |w'.trace| && w'.trace[..|w.trace|] == w.trace
      && w'.trace[|w.trace|] == Printed(EndMessage(completed, failed))
      && (forall k :: |w.trace| < k < |w'.trace| ==> w'.trace[k].Wrote?)
      && w'.coll.uploads == w.coll.uploads
      && (task.None? ==>
            exit == Raised(ValueError("Task with ID '" + EnvText(env.taskId) + "' not found."))
            && w'.coll == w.coll && w'.writes == w.writes)
      && (task.Some? && WriteFails(faults, w.writes) ==> exit == Raised(DatabaseError) && w'.coll == w.coll)
      && (task.Some? && !WriteFails(faults, w.writes) && WriteFails(faults, w.writes + 1) ==>
            && exit == Raised(DatabaseError)
            && FindTask(w'.coll, env.taskId) == Some(task.value.(processingStatus := Failed, completed := false, trainingLog := Some(e)))
            && w'.coll == w.coll.(tasks := w.coll.tasks[env.taskId.value := task.value.(processingStatus := Failed, completed := false, trainingLog := Some(e))]))
      && (task.Some? && !WriteFails(faults, w.writes) && !WriteFails(faults, w.writes + 1) ==>
            && exit == Raised(e)
            && FindTask(w'.coll, env.taskId) == Some(task.value.(processingStatus := Failed, completed := false, trainingLog := Some(e)))
            && (model.Some? ==> FindModelByTask(w'.coll, env.taskId) == Some(model.value.(status := ModelFailed)))
            && (model.None? ==> w'.coll.models == w.coll.models)
            && w'.coll == w.coll.(tasks := w.coll.tasks[env.taskId.value := task.value.(processingStatus := Failed, completed := false, trainingLog := Some(e))], models := SetStatusAt(w.coll.models, FirstByTask(w.coll.models, env.taskId.value), ModelFailed)))
  {
    var w1 := w.(trace := w.trace + [Printed(EndMessage(completed, failed))]);
    if FindTask(w.coll, env.taskId).Some? {
      HandlerWrites(e, env, faults, w, w1);
      var (ok, w2) := WriteStep(faults, w1, UpdateTask(env.taskId, MarkFailed(e)));
      var (ok2, w3) := WriteStep(faults, w2, UpdateModelByTask(env.taskId, ModelFailed));
      assert Handler(e, completed, failed, env, faults, w)
        == if !ok then (Raised(DatabaseError), w2) else if !ok2 then (Raised(DatabaseError), w3) else (Raised(e), w3);
    }
  }

  /** The two writes of the handler when the task exists, from the world after the summary. */
  lemma HandlerWrites(e: Exc, env: Env, faults: seq<bool>, w: World, w1: World)
    requires FindTask(w.coll, env.taskId).Some?
    requires w1.coll == w.coll && w1.writes == w.writes && |w1.trace| == |w.trace| + 1
    ensures var (ok, w2) := WriteStep(faults, w1, UpdateTask(env.taskId, MarkFailed(e)));
      var (ok2, w3) := WriteStep(faults, w2, UpdateModelByTask(env.taskId, ModelFailed));
      var task := FindTask(w.coll, env.taskId).value;
      var model := FindModelByTask(w.coll, env.taskId);
      && ok == !WriteFails(faults, w.writes)
      && w2.trace == w1.trace + [Wrote(UpdateTask(env.taskId, MarkFailed(e)), ok)]
      && w3.trace == w2.trace + [Wrote(UpdateModelByTask(env.taskId, ModelFailed), ok2)]
      && w2.coll.uploads == w.coll.uploads && w3.coll.uploads == w.coll.uploads
      && ok2 == !WriteFails(faults, w.writes + 1)
      && (!ok ==> w2.coll == w.coll)
      && (ok ==>
            && FindTask(w2.coll, env.taskId) == Some(task.(processingStatus := Failed, completed := false, trainingLog := Some(e)))
            && w2.coll == w.coll.(tasks := w.coll.tasks[env.taskId.value := task.(processingStatus := Failed, completed := false, trainingLog := Some(e))]))
      && (!ok2 ==> w3.coll == w2.coll)
      && (ok && ok2 ==>
            && FindTask(w3.coll, env.taskId) == Some(task.(processingStatus := Failed, completed := false, trainingLog := Some(e)))
            && (model.Some? ==> FindModelByTask(w3.coll, env.taskId) == Some(model.value.(status := ModelFailed)))
            && (model.None? ==> w3.coll.models == w.coll.models)
            && w3.coll == w.coll.(tasks := w.coll.tasks[env.taskId.value := task.(processingStatus := Failed, completed := false, trainingLog := Some(e))], models := SetStatusAt(w.coll.models, FirstByTask(w.coll.models, env.taskId.value), ModelFailed)))
  {
    var (ok, w2) := WriteStep(faults, w1, UpdateTask(env.taskId, MarkFailed(e)));
    FirstByTaskSetStatus(w2.coll.models, FirstByTask(w2.coll.models, env.taskId.value), ModelFailed, env.taskId.value);
  }

  // ---------------------------------------------------------------- main

  /** Every event after the first is a job start, a write or a sleep. */
  predicate PrintsOnlyHeader(trace: seq<Event>) {
    forall k :: 0 < k < |trace| ==> !trace[k].Printed?
  }

  /** A job start followed by writes and sleeps prints nothing. */
  lemma HeaderKept(t: seq<Event>, t': seq<Event>)
    requires PrintsOnlyHeader(t)
    requires |t| < |t'| && t'[..|t|] == t && t'[|t|].JobStarted?
    requires forall k :: |t| < k < |t'| ==> t'[k].Wrote? || t'[k] == Slept
    ensures PrintsOnlyHeader(t')
  {
    forall k | 0 < k < |t'|
      ensures !t'[k].Printed?
    {
      if k < |t| {
        assert t'[k] == t'[..|t|][k];
      }
    }
  }

  /** With `--recover`, `main` never raises and never prints the summary: every exception is
      swallowed with no write of the handler, and at most one job per config is counted either
      way. */
  lemma {:induction false} RecoverNeverRaises(i: nat, configs: seq<ConfigRun>, env: Env, files: map<string, File>, dirs: set<string>,
                                               faults: seq<bool>, completed: nat, failed: nat, w: World)
    requires i <= |configs|
    requires PrintsOnlyHeader(w.trace) && |w.trace| > 0
    ensures var o := MainFrom(i, configs, true, env, files, dirs, faults, completed, failed, w);
      && o.exit == Returned
      && PrintsOnlyHeader(o.world.trace)
      && o.world.coll.uploads == w.coll.uploads
      && completed <= o.completed <= completed + (|configs| - i)
      && failed <= o.failed <= failed + (|configs| - i)
    decreases |configs| - i
  {
    if i < |configs| {
      TryBodyEnds(i, configs[i], env, files, dirs, faults, completed, w);
      var (flow, w1, completed1) := TryBody(i, configs[i], env, files, dirs, faults, completed, w);
      MainFromStep(i, configs, true, env, files, dirs, faults, completed, failed, w, flow, w1, completed1);
      HeaderKept(w.trace, w1.trace);
      if flow.Throw? {
        RecoverNeverRaises(i + 1, configs, env, files, dirs, faults, completed1, failed + 1, w1);
      }
    }
  }

  /** With `--recover` and every job raising, `main` returns with the database untouched, no job
      counted as completed and every config counted as failed; the trace is the header line
      followed by one job start per config, in order. */
  lemma {:induction false} RecoverAllJobsFail(i: nat, configs: seq<ConfigRun>, env: Env, files: map<string, File>, dirs: set<string>,
                                               faults: seq<bool>, completed: nat, failed: nat, w: World)
    requires i <= |configs|
    requires forall k :: 0 <= k < |configs| ==> configs[k].job.JobRaises?
    ensures var o := MainFrom(i, configs, true, env, files, dirs, faults, completed, failed, w);
      && o.exit == Returned
      && o.world.coll == w.coll && o.world.writes == w.writes
      && o.completed == completed && o.failed == failed + (|configs| - i)
      && |o.world.trace| == |w.trace| + (|configs| - i)
      && o.world.trace[..|w.trace|] == w.trace
      && (forall k :: i <= k < |configs| ==> o.world.trace[|w.trace| + (k - i)] == JobStarted(k, configs[k].file))
    decreases |configs| - i
  {
    if i < |configs| {
      var w1 := w.(trace := w.trace + [JobStarted(i, configs[i].file)]);
      RecoverAllJobsFail(i + 1, configs, env, files, dirs, faults, completed, failed + 1, w1);
      var o := MainFrom(i + 1, configs, true, env, files, dirs, faults, completed, failed + 1, w1);
      assert o.world.trace[..|w.trace|] == o.world.trace[..|w1.trace|][..|w.trace|];
      assert o.world.trace[|w.trace|] == o.world.trace[..|w1.trace|][|w.trace|];
    }
  }

  /** The whole run with `--recover` and every job raising. */
  lemma MainRecoverAllJobsFail(configs: seq<ConfigRun>, env: Env, files: map<string, File>, dirs: set<string>,
                               faults: seq<bool>, coll: Collections, writes: nat)
    requires |configs| > 0
    requires forall k :: 0 <= k < |configs| ==> configs[k].job.JobRaises?
    ensures var o := MainSpec(configs, true, env, files, dirs, faults, coll, writes);
      && o.exit == Returned && o.world.coll == coll && o.world.writes == writes
      && o.completed == 0 && o.failed == |configs|
      && |o.world.trace| == |configs| + 1 && o.world.trace[0] == Printed([RunningLine(|configs|)])
      && (forall k :: 0 <= k < |configs| ==> o.world.trace[k + 1] == JobStarted(k, configs[k].file))
  {
    var w := World(coll, writes, [Printed([RunningLine(|configs|)])]);
    RecoverAllJobsFail(0, configs, env, files, dirs, faults, 0, 0, w);
    var o := MainFrom(0, configs, true, env, files, dirs, faults, 0, 0, w);
    assert o.world.trace[0] == o.world.trace[..1][0];
  }

  /** The handler keeps the first job start as the only one, prints the summary and raises. */
  lemma HandlerKeepsJobStart(e: Exc, completed: nat, env: Env, faults: seq<bool>, w: World, start: Event)
    requires |w.trace| >= 2 && w.trace[1] == start
    requires forall k :: 1 < k < |w.trace| ==> !w.trace[k].JobStarted?
    ensures var (exit, w') := Handler(e, completed, 1, env, faults, w);
      && |w'.trace| >= 2 && w'.trace[1] == start
      && (forall k :: 1 < k < |w'.trace| ==> !w'.trace[k].JobStarted?)
      && exit.Raised?
      && Printed(EndMessage(completed, 1)) in w'.trace
      && w'.coll.uploads == w.coll.uploads
  {
    HandlerOutcome(e, completed, 1, env, faults, w);
    var (exit, w') := Handler(e, completed, 1, env, faults, w);
    assert w'.trace[1] == w'.trace[..|w.trace|][1];
    forall k | 1 < k < |w'.trace|
      ensures !w'.trace[k].JobStarted?
    {
      if k < |w.trace| {
        assert w'.trace[k] == w'.trace[..|w.trace|][k];
      }
    }
  }

  /** The trace holds `start` as its second event and no other job start after it. */
  predicate OnlyFirstStart(trace: seq<Event>, start: Event) {
    |trace| >= 2 && trace[1] == start && forall k :: 1 < k < |trace| ==> !trace[k].JobStarted?
  }

  /** What a run without `--recover` leaves: the first config's job start as the only one, at
      most one completed job, a return exactly when nothing failed and a raise exactly when one
      job failed, the summary for the counters printed before a raise, and the upload records
      untouched. */
  predicate FirstConfigOnly(o: Outcome, start: Event, uploads: seq<UploadRecord>) {
    && OnlyFirstStart(o.world.trace, start)
    && o.completed <= 1
    && (o.exit == Returned <==> o.failed == 0)
    && (o.exit.Raised? <==> o.failed == 1)
    && (o.exit.Raised? ==> Printed(EndMessage(o.completed, 1)) in o.world.trace)
    && o.world.coll.uploads == uploads
  }

  /** The run without `--recover`, from how the first config's `try` block ended. */
  lemma NoRecoverCases(o: Outcome, flow: Flow, w1: World, completed1: nat, env: Env, faults: seq<bool>,
                       start: Event, uploads: seq<UploadRecord>)
    requires OnlyFirstStart(w1.trace, start) && completed1 <= 1 && flow != FallThrough && w1.coll.uploads == uploads
    requires flow == Return ==> o == Outcome(Returned, w1, completed1, 0)
    requires flow.Throw? ==>
      var (exit, w2) := Handler(flow.e, completed1, 1, env, faults, w1);
      o == Outcome(exit, w2, completed1, 1)
    ensures FirstConfigOnly(o, start, uploads)
  {
    if flow.Throw? {
      HandlerKeepsJobStart(flow.e, completed1, env, faults, w1, start);
    }
  }

  /** The per-config loop without `--recover`, entered with one event in the trace. */
  lemma NoRecoverFrom(configs: seq<ConfigRun>, env: Env, files: map<string, File>, dirs: set<string>,
                      faults: seq<bool>, w: World)
    requires |configs| > 0 && |w.trace| == 1
    ensures FirstConfigOnly(MainFrom(0, configs, false, env, files, dirs, faults, 0, 0, w), JobStarted(0, configs[0].file), w.coll.uploads)
  {
    TryBodyEnds(0, configs[0], env, files, dirs, faults, 0, w);
    var (flow, w1, completed1) := TryBody(0, configs[0], env, files, dirs, faults, 0, w);
    MainFromStep(0, configs, false, env, files, dirs, faults, 0, 0, w, flow, w1, completed1);
    assert w1.trace[1] == w1.trace[|w.trace|];
    NoRecoverCases(MainFrom(0, configs, false, env, files, dirs, faults, 0, 0, w), flow, w1, completed1, env, faults,
                   JobStarted(0, configs[0].file), w.coll.uploads);
  }

  /** Without `--recover` only the first config is processed. Either its try block returns, with
      no failure counted, or it raises: then `jobs_failed` is 1, the summary for the counters is
      printed, and `main` raises. No upload record is ever inserted. */
  lemma NoRecoverFirstConfigOnly(configs: seq<ConfigRun>, env: Env, files: map<string, File>, dirs: set<string>,
                                 faults: seq<bool>, coll: Collections, writes: nat)
    requires |configs| > 0
    ensures FirstConfigOnly(MainSpec(configs, false, env, files, dirs, faults, coll, writes), JobStarted(0, configs[0].file), coll.uploads)
  {
    NoRecoverFrom(configs, env, files, dirs, faults, World(coll, writes, [Printed([RunningLine(|configs|)])]));
  }
}
