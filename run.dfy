/** `run.py`: the orchestrator. It runs each config file's training job, then marks the task
    completed and the model ready; on an exception it prints a summary and marks both failed.
    The pure parts are specification functions over a `World` (collections, write counter and the
    trace of calls made); the methods are the imperative `main` with its loops, each proved equal
    to its specification function. */
module Run {
  import opened Base
  import opened Text
  import opened Externals
  import PrepareConfig

  // ---------------------------------------------------------------- print_end_message

  function Plural(n: nat): string {
    if n == 1 then "" else "s"
  }

  /** `failure_string`: empty when nothing failed. */
  function FailureString(failed: nat): string {
    if failed > 0 then NatToString(failed) + " failure" + Plural(failed) else ""
  }

  /** `completed_string`. */
  function CompletedString(completed: nat): string {
    NatToString(completed) + " completed job" + Plural(completed)
  }

  const Rule: string := "====================" + "===================="

  /** The lines `print_end_message` prints. The completed line is always there; the failure line
      only when something failed. */
  function EndMessage(completed: nat, failed: nat): (lines: seq<string>)
    ensures |lines| == if failed > 0 then 6 else 5
    ensures lines[0] == "" && lines[1] == Rule && lines[2] == "Result:" && lines[|lines| - 1] == Rule
    ensures lines[3] == " - " + CompletedString(completed)
    ensures failed > 0 ==> lines[4] == " - " + FailureString(failed)
  {
    ["", Rule, "Result:"]
    + (if |CompletedString(completed)| > 0 then [" - " + CompletedString(completed)] else [])
    + (if |FailureString(failed)| > 0 then [" - " + FailureString(failed)] else [])
    + [Rule]
  }

  /** The line printed before the loop. */
  function RunningLine(n: nat): string {
    "Running " + NatToString(n) + " job" + Plural(n)
  }

  // ---------------------------------------------------------------- the world main acts on

  /** `TASK_ID` and `ROOT_FOLDER`, which may be unset. */
  datatype Env = Env(taskId: Option<string>, rootFolder: Option<string>)

  /** What `get_job(...)`, `job.run()` and `job.cleanup()` do together. */
  datatype JobOutcome = JobSucceeds | JobRaises(msg: string)

  /** A config file named on the command line, with the outcome of its job. */
  datatype ConfigRun = ConfigRun(file: string, job: JobOutcome)

  /** The calls `main` makes, in order. */
  datatype Event =
    | JobStarted(index: nat, file: string)
    | Wrote(w: Write, ok: bool)
    | Slept
    | Printed(lines: seq<string>)

  /** The database (its collections and how many writes it has seen) and the trace so far. */
  datatype World = World(coll: Collections, writes: nat, trace: seq<Event>)

  /** How a block of `main` ends: `return` from `main`, an exception, or falling off the end. */
  datatype Flow = Return | Throw(e: Exc) | FallThrough

  /** How `main` ends. */
  datatype Exit = Returned | Raised(e: Exc)

  /** The outcome of `main`, with its two counters. */
  datatype Outcome = Outcome(exit: Exit, world: World, completed: nat, failed: nat)

  /** One database write: whether it went through, and the world after it. */
  function WriteStep(faults: seq<bool>, w: World, wr: Write): (bool, World) {
    var ok := !WriteFails(faults, w.writes);
    (ok, World(if ok then Apply(w.coll, wr) else w.coll, w.writes + 1, w.trace + [Wrote(wr, ok)]))
  }

  function Sleep(w: World): World {
    w.(trace := w.trace + [Slept])
  }

  // ---------------------------------------------------------------- the completion path

  const LoraBucket: string := "loras"
  const LoraHost: string := "https://loras.cheeryclick.com/"

  /** `loraKey`. */
  function LoraKey(userId: string, modelId: string): string {
    userId + "/" + modelId + ".safetensors"
  }

  /** The `result` sub-document written when the task is marked completed. */
  function CompletedResult(key: string): TaskResult {
    TaskResult(LoraHost + key, LocationInfo(LoraBucket, [], [key]))
  }

  /** Where the trained weights are expected. */
  function ArtifactPath(env: Env): string {
    EnvText(env.rootFolder) + "/output/" + EnvText(env.taskId) + "/" + EnvText(env.taskId) + ".safetensors"
  }

  /** The model-ready loop from iteration `attempt` on: the update in a `try`, and in the handler
      a sleep and a second, unprotected update, or the re-raise after the last attempt. */
  function ModelLoop(attempt: nat, modelId: string, faults: seq<bool>, w: World): (Flow, World)
    requires attempt <= 3
    decreases 3 - attempt
  {
    if attempt == 3 then (FallThrough, w)
    else
      var (ok, w1) := WriteStep(faults, w, UpdateModelById(modelId, Ready));
      if ok then (Return, w1)
      else if attempt < 2 then
        var (ok2, w2) := WriteStep(faults, Sleep(w1), UpdateModelById(modelId, Ready));
        if ok2 then ModelLoop(attempt + 1, modelId, faults, w2) else (Throw(DatabaseError), w2)
      else (Throw(DatabaseError), w1)
  }

  /** The task-completed loop from iteration `attempt` on; the model-ready loop sits in its body,
      after the handler of the first update. */
  function TaskLoop(attempt: nat, taskId: Option<string>, key: string, modelId: string, faults: seq<bool>, w: World): (Flow, World)
    requires attempt <= 3
    decreases 3 - attempt
  {
    if attempt == 3 then (FallThrough, w)
    else
      var done := UpdateTask(taskId, MarkCompleted(CompletedResult(key)));
      var (ok, w1) := WriteStep(faults, w, done);
      if ok then (Return, w1)
      else if attempt < 2 then
        var (ok2, w2) := WriteStep(faults, Sleep(w1), done);
        if !ok2 then (Throw(DatabaseError), w2)
        else
          var (flow, w3) := ModelLoop(0, modelId, faults, w2);
          if flow == FallThrough then TaskLoop(attempt + 1, taskId, key, modelId, faults, w3) else (flow, w3)
      else (Throw(DatabaseError), w1)
  }

  /** The rest of the `try` block after the job: look the task and model up, the upload guard,
      then the task-completed loop. */
  function AfterJob(env: Env, files: map<string, File>, dirs: set<string>, faults: seq<bool>, w: World): (Flow, World) {
    var task := FindTask(w.coll, env.taskId);
    var model := FindModelByTask(w.coll, env.taskId);
    if task.None? || model.None? then (Throw(TypeError), w)
    else
      var key := LoraKey(task.value.userId, model.value.id);
      if task.value.result.None? then
        var path := ArtifactPath(env);
        if path in files || path in dirs then (Throw(NameError("get_file_as_buffer")), w)
        else (Throw(RuntimeError), w)
      else TaskLoop(0, env.taskId, key, model.value.id, faults, w)
  }

  /** The whole `try` block for config `i`: its flow, the world after it and `jobs_completed`. */
  function TryBody(i: nat, config: ConfigRun, env: Env, files: map<string, File>, dirs: set<string>,
                   faults: seq<bool>, completed: nat, w: World): (Flow, World, nat)
  {
    var w0 := w.(trace := w.trace + [JobStarted(i, config.file)]);
    match config.job
    case JobRaises(msg) => (Throw(JobError(msg)), w0, completed)
    case JobSucceeds =>
      var (flow, w1) := AfterJob(env, files, dirs, faults, w0);
      (flow, w1, completed + 1)
  }

  /** The handler without `--recover`, entered with `jobs_failed` already incremented. */
  function Handler(e: Exc, completed: nat, failed: nat, env: Env, faults: seq<bool>, w: World): (Exit, World) {
    var w1 := w.(trace := w.trace + [Printed(EndMessage(completed, failed))]);
    if FindTask(w1.coll, env.taskId).None? then (Raised(PrepareConfig.NotFound(EnvText(env.taskId))), w1)
    else
      var (ok, w2) := WriteStep(faults, w1, UpdateTask(env.taskId, MarkFailed(e)));
      if !ok then (Raised(DatabaseError), w2)
      else
        var (ok2, w3) := WriteStep(faults, w2, UpdateModelByTask(env.taskId, ModelFailed));
        if !ok2 then (Raised(DatabaseError), w3) else (Raised(e), w3)
  }

  /** The per-config loop from config `i` on. */
  function MainFrom(i: nat, configs: seq<ConfigRun>, recover: bool, env: Env, files: map<string, File>, dirs: set<string>,
                    faults: seq<bool>, completed: nat, failed: nat, w: World): Outcome
    requires i <= |configs|
    decreases |configs| - i
  {
    if i == |configs| then Outcome(Returned, w, completed, failed)
    else
      var (flow, w1, completed1) := TryBody(i, configs[i], env, files, dirs, faults, completed, w);
      match flow
      case Return => Outcome(Returned, w1, completed1, failed)
      case FallThrough => MainFrom(i + 1, configs, recover, env, files, dirs, faults, completed1, failed, w1)
      case Throw(e) =>
        if recover then MainFrom(i + 1, configs, recover, env, files, dirs, faults, completed1, failed + 1, w1)
        else
          var (exit, w2) := Handler(e, completed1, failed + 1, env, faults, w1);
          Outcome(exit, w2, completed1, failed + 1)
  }

  /** One step of the per-config loop, by how config `i`'s `try` block ended. */
  lemma MainFromStep(i: nat, configs: seq<ConfigRun>, recover: bool, env: Env, files: map<string, File>, dirs: set<string>,
                     faults: seq<bool>, completed: nat, failed: nat, w: World, flow: Flow, w1: World, completed1: nat)
    requires i < |configs|
    requires (flow, w1, completed1) == TryBody(i, configs[i], env, files, dirs, faults, completed, w)
    ensures flow == Return ==> MainFrom(i, configs, recover, env, files, dirs, faults, completed, failed, w) == Outcome(Returned, w1, completed1, failed)
    ensures flow == FallThrough ==>
      MainFrom(i, configs, recover, env, files, dirs, faults, completed, failed, w)
        == MainFrom(i + 1, configs, recover, env, files, dirs, faults, completed1, failed, w1)
    ensures flow.Throw? && recover ==>
      MainFrom(i, configs, recover, env, files, dirs, faults, completed, failed, w)
        == MainFrom(i + 1, configs, recover, env, files, dirs, faults, completed1, failed + 1, w1)
    ensures flow.Throw? && !recover ==>
      var (exit, w2) := Handler(flow.e, completed1, failed + 1, env, faults, w1);
      MainFrom(i, configs, recover, env, files, dirs, faults, completed, failed, w) == Outcome(exit, w2, completed1, failed + 1)
  {
  }

  const NoConfigs: string := "You must provide at least one config file"

  /** `main`, from the collections and write counter it starts with. */
  function MainSpec(configs: seq<ConfigRun>, recover: bool, env: Env, files: map<string, File>, dirs: set<string>,
                    faults: seq<bool>, coll: Collections, writes: nat): Outcome
  {
    if |configs| == 0 then Outcome(Raised(UsageError(NoConfigs)), World(coll, writes, []), 0, 0)
    else MainFrom(0, configs, recover, env, files, dirs, faults, 0, 0, World(coll, writes, [Printed([RunningLine(|configs|)])]))
  }

  // ---------------------------------------------------------------- the imperative main

  function Now(db: Database, trace: seq<Event>): World
    reads db
  {
    World(db.Snapshot(), db.writes, trace)
  }

  /** One `update_one` call, recorded in the trace. */
  method IssueWrite(db: Database, wr: Write, trace: seq<Event>) returns (ok: bool, trace': seq<Event>)
    modifies db
    ensures (ok, Now(db, trace')) == WriteStep(db.faults, old(Now(db, trace)), wr)
  {
    ok := db.Issue(wr);
    trace' := trace + [Wrote(wr, ok)];
  }

  /** Lines 173-195. */
  method MarkModelReady(db: Database, modelId: string, trace: seq<Event>) returns (flow: Flow, trace': seq<Event>)
    modifies db
    ensures (flow, Now(db, trace')) == ModelLoop(0, modelId, db.faults, old(Now(db, trace)))
  {
    trace' := trace;
    for attempt := 0 to 3
      invariant ModelLoop(0, modelId, db.faults, old(Now(db, trace))) == ModelLoop(attempt, modelId, db.faults, Now(db, trace'))
    {
      var ok;
      ok, trace' := IssueWrite(db, UpdateModelById(modelId, Ready), trace');
      if ok {
        flow := Return;
        return;
      }
      if attempt < 2 {
        trace' := trace' + [Slept];
      } else {
        flow := Throw(DatabaseError);
        return;
      }
      ok, trace' := IssueWrite(db, UpdateModelById(modelId, Ready), trace');
      if !ok {
        flow := Throw(DatabaseError);
        return;
      }
    }
    flow := FallThrough;
  }

  /** Lines 121-195. */
  method CompleteTask(db: Database, taskId: Option<string>, key: string, modelId: string, trace: seq<Event>)
    returns (flow: Flow, trace': seq<Event>)
    modifies db
    ensures (flow, Now(db, trace')) == TaskLoop(0, taskId, key, modelId, db.faults, old(Now(db, trace)))
  {
    trace' := trace;
    var done := UpdateTask(taskId, MarkCompleted(CompletedResult(key)));
    for attempt := 0 to 3
      invariant TaskLoop(0, taskId, key, modelId, db.faults, old(Now(db, trace))) == TaskLoop(attempt, taskId, key, modelId, db.faults, Now(db, trace'))
    {
      var ok;
      ok, trace' := IssueWrite(db, done, trace');
      if ok {
        flow := Return;
        return;
      }
      if attempt < 2 {
        trace' := trace' + [Slept];
      } else {
        flow := Throw(DatabaseError);
        return;
      }
      ok, trace' := IssueWrite(db, done, trace');
      if !ok {
        flow := Throw(DatabaseError);
        return;
      }
      flow, trace' := MarkModelReady(db, modelId, trace');
      if flow != FallThrough {
        return;
      }
    }
    flow := FallThrough;
  }

  /** Lines 198-224 without `--recover`, after `jobs_failed` is incremented. */
  method HandleFailure(e: Exc, completed: nat, failed: nat, env: Env, db: Database, trace: seq<Event>)
    returns (exit: Exit, trace': seq<Event>)
    modifies db
    ensures (exit, Now(db, trace')) == Handler(e, completed, failed, env, db.faults, old(Now(db, trace)))
  {
    trace' := trace + [Printed(EndMessage(completed, failed))];
    var task := FindTask(db.Snapshot(), env.taskId);
    if task.None? {
      exit := Raised(PrepareConfig.NotFound(EnvText(env.taskId)));
      return;
    }
    var ok;
    ok, trace' := IssueWrite(db, UpdateTask(env.taskId, MarkFailed(e)), trace');
    if !ok {
      exit := Raised(DatabaseError);
      return;
    }
    ok, trace' := IssueWrite(db, UpdateModelByTask(env.taskId, ModelFailed), trace');
    if !ok {
      exit := Raised(DatabaseError);
      return;
    }
    exit := Raised(e);
  }

  /** Lines 88-195: the `try` block for config `i`, returning its flow and the new `jobs_completed`. */
  method RunTryBody(i: nat, config: ConfigRun, env: Env, fs: FileSystem, db: Database, completed: nat, trace: seq<Event>)
    returns (flow: Flow, completed': nat, trace': seq<Event>)
    modifies db
    ensures (flow, Now(db, trace'), completed') == TryBody(i, config, env, fs.files, fs.dirs, db.faults, completed, old(Now(db, trace)))
  {
    trace' := trace + [JobStarted(i, config.file)];
    completed' := completed;
    if config.job.JobRaises? {
      flow := Throw(JobError(config.job.msg));
      return;
    }
    completed' := completed + 1;
    var task := FindTask(db.Snapshot(), env.taskId);
    var model := FindModelByTask(db.Snapshot(), env.taskId);
    if task.None? || model.None? {
      flow := Throw(TypeError);
      return;
    }
    var loraKey := LoraKey(task.value.userId, model.value.id);
    if task.value.result.None? {
      var filePath := ArtifactPath(env);
      if fs.Exists(filePath) {
        flow := Throw(NameError("get_file_as_buffer"));
      } else {
        flow := Throw(RuntimeError);
      }
      return;
    }
    flow, trace' := CompleteTask(db, env.taskId, loraKey, model.value.id, trace');
  }

  /** `main`: the per-config loop with its counters and the `recover` flag. */
  method RunMain(configs: seq<ConfigRun>, recover: bool, env: Env, fs: FileSystem, db: Database)
    returns (exit: Exit, trace: seq<Event>)
    modifies db
    ensures var o := MainSpec(configs, recover, env, fs.files, fs.dirs, db.faults, old(db.Snapshot()), old(db.writes));
      exit == o.exit && Now(db, trace) == o.world
  {
    if |configs| == 0 {
      exit := Raised(UsageError(NoConfigs));
      trace := [];
      return;
    }
    var jobsCompleted: nat := 0;
    var jobsFailed: nat := 0;
    trace := [Printed([RunningLine(|configs|)])];
    ghost var whole := MainFrom(0, configs, recover, env, fs.files, fs.dirs, db.faults, 0, 0, Now(db, trace));
    assert whole == MainSpec(configs, recover, env, fs.files, fs.dirs, db.faults, db.Snapshot(), db.writes);
    for i := 0 to |configs|
      invariant whole == MainFrom(i, configs, recover, env, fs.files, fs.dirs, db.faults, jobsCompleted, jobsFailed, Now(db, trace))
    {
      ghost var before := Now(db, trace);
      ghost var completedBefore := jobsCompleted;
      var flow: Flow;
      flow, jobsCompleted, trace := RunTryBody(i, configs[i], env, fs, db, jobsCompleted, trace);
      MainFromStep(i, configs, recover, env, fs.files, fs.dirs, db.faults, completedBefore, jobsFailed, before,
                   flow, Now(db, trace), jobsCompleted);
      match flow
      case Return =>
        exit := Returned;
        return;
      case FallThrough =>
      case Throw(e) =>
        jobsFailed := jobsFailed + 1;
        if !recover {
          exit, trace := HandleFailure(e, jobsCompleted, jobsFailed, env, db, trace);
          return;
        }
    }
    exit := Returned;
  }
}
