/** The collaborators the core talks to, reduced to the state they hold: the MongoDB collections
    `tasks`, `models` and `cloudflare_r2`, the local filesystem and the R2 object store.
    Each write a collaborator can refuse takes its outcome from a script given up front. */
module Externals {
  import opened Base
  import Yaml

  /** The Python exceptions that travel through the core. */
  datatype Exc =
    | UsageError(msg: string)    // `Exception(...)` raised for an empty config list
    | ValueError(msg: string)    // raised by the core for a missing task record
    | TypeError                  // subscripting the `None` that `find_one` returns
    | RuntimeError               // a bare `raise` with no exception being handled
    | NameError(name: string)    // a call to a function that is not yet defined
    | JobError(msg: string)      // raised by the external training job
    | ClientError                // botocore's storage-client error
    | OtherStorageError          // any other exception of the storage client, such as a failed connection
    | DatabaseError              // a MongoDB write that failed

  datatype ProcessingStatus = Pending | Processing | Completed | Failed

  datatype ModelStatus = ModelPending | Ready | ModelFailed

  datatype Metadata = Metadata(gender: string, datasetUrls: seq<string>)

  datatype LocationInfo = LocationInfo(bucketName: string, optimizedKeys: seq<string>, originalKeys: seq<string>)

  /** The `result` sub-document of a completed task (its `completedIn` duration is not modelled). */
  datatype TaskResult = TaskResult(modelUrl: string, locationInfo: LocationInfo)

  /** A document of the `tasks` collection (timestamps are not modelled). */
  datatype Task = Task(
    userId: string,
    metadata: Metadata,
    processingStatus: ProcessingStatus,
    progress: int,
    completed: bool,
    result: Option<TaskResult>,
    trainingLog: Option<Exc>)

  /** A document of the `models` collection. */
  datatype ModelDoc = ModelDoc(id: string, taskId: string, status: ModelStatus)

  /** A document of the `cloudflare_r2` collection (its timestamp and generated `_id` are not modelled). */
  datatype UploadRecord = UploadRecord(bucketName: string, key: string, contentType: string)

  /** The three collections; `models` keeps MongoDB's natural order, so `find_one` and
      `update_one` act on the first matching document. */
  datatype Collections = Collections(tasks: map<string, Task>, models: seq<ModelDoc>, uploads: seq<UploadRecord>)

  /** The `$set` part of a task update. */
  datatype TaskPatch =
    | MarkCompleted(result: TaskResult)
    | MarkFailed(log: Exc)

  /** The database writes the core issues. A task id of None stands for `ObjectId(None)`, a fresh id
      that matches no document. */
  datatype Write =
    | UpdateTask(taskId: Option<string>, patch: TaskPatch)
    | UpdateModelById(modelId: string, status: ModelStatus)
    | UpdateModelByTask(taskId: Option<string>, status: ModelStatus)
    | InsertUpload(record: UploadRecord)

  /** `find_one({"_id": ObjectId(taskId)})` on `tasks`. */
  function FindTask(c: Collections, taskId: Option<string>): Option<Task> {
    if taskId.Some? && taskId.value in c.tasks then Some(c.tasks[taskId.value]) else None
  }

  /** Index of the first model whose `taskId` is `taskId`, or `|models|` when there is none. */
  function FirstByTask(models: seq<ModelDoc>, taskId: string): (i: nat)
    ensures i <= |models|
    ensures i < |models| ==> models[i].taskId == taskId
    ensures forall j :: 0 <= j < i ==> models[j].taskId != taskId
  {
    if models == [] then 0
    else if models[0].taskId == taskId then 0
    else 1 + FirstByTask(models[1..], taskId)
  }

  /** Index of the first model whose `_id` is `modelId`, or `|models|` when there is none. */
  function FirstById(models: seq<ModelDoc>, modelId: string): (i: nat)
    ensures i <= |models|
    ensures i < |models| ==> models[i].id == modelId
    ensures forall j :: 0 <= j < i ==> models[j].id != modelId
  {
    if models == [] then 0
    else if models[0].id == modelId then 0
    else 1 + FirstById(models[1..], modelId)
  }

  /** `find_one({"taskId": ObjectId(taskId)})` on `models`. */
  function FindModelByTask(c: Collections, taskId: Option<string>): (m: Option<ModelDoc>)
    ensures m.Some? ==> m.value in c.models && Some(m.value.taskId) == taskId
    ensures taskId.Some? && (exists j :: 0 <= j < |c.models| && c.models[j].taskId == taskId.value) ==> m.Some?
    ensures m.Some? ==> m.value == c.models[FirstByTask(c.models, taskId.value)]
  {
    if taskId.None? then None
    else
      var i := FirstByTask(c.models, taskId.value);
      if i < |c.models| then Some(c.models[i]) else None
  }

  function SetStatusAt(models: seq<ModelDoc>, i: nat, status: ModelStatus): (r: seq<ModelDoc>)
    ensures |r| == |models|
    ensures forall j :: 0 <= j < |r| && j != i ==> r[j] == models[j]
    ensures i < |r| ==> r[i] == models[i].(status := status)
  {
    if i < |models| then models[i := models[i].(status := status)] else models
  }

  function ApplyPatch(t: Task, patch: TaskPatch): Task {
    match patch
    case MarkCompleted(r) =>
      t.(processingStatus := Completed, progress := 100, completed := true, result := Some(r))
    case MarkFailed(e) =>
      t.(processingStatus := Failed, completed := false, trainingLog := Some(e))
  }

  /** The collections after a write that succeeded. An update whose filter matches nothing
      changes nothing, as `update_one` does. */
  function Apply(c: Collections, w: Write): Collections {
    match w
    case UpdateTask(id, patch) =>
      if id.Some? && id.value in c.tasks
      then c.(tasks := c.tasks[id.value := ApplyPatch(c.tasks[id.value], patch)])
      else c
    case UpdateModelById(mid, status) =>
      c.(models := SetStatusAt(c.models, FirstById(c.models, mid), status))
    case UpdateModelByTask(tid, status) =>
      if tid.None? then c else c.(models := SetStatusAt(c.models, FirstByTask(c.models, tid.value), status))
    case InsertUpload(rec) =>
      c.(uploads := c.uploads + [rec])
  }

  /** Whether the k-th write (counting from 0) raises; writes past the end of the script succeed. */
  function WriteFails(faults: seq<bool>, k: nat): bool {
    k < |faults| && faults[k]
  }

  /** The MongoDB database of the deployment. */
  class Database {
    var tasks: map<string, Task>
    var models: seq<ModelDoc>
    var uploads: seq<UploadRecord>
    /** The scripted outcome of every write: the k-th write raises exactly when `WriteFails(faults, k)`. */
    const faults: seq<bool>
    /** The number of writes issued so far. */
    var writes: nat

    constructor (c: Collections, faults: seq<bool>)
      ensures Snapshot() == c && this.faults == faults && writes == 0
    {
      tasks, models, uploads := c.tasks, c.models, c.uploads;
      this.faults := faults;
      writes := 0;
    }

    function Snapshot(): Collections
      reads this
    {
      Collections(tasks, models, uploads)
    }

    /** `update_one` / `insert_one`: applied when it succeeds, no effect when it raises. */
    method Issue(w: Write) returns (ok: bool)
      modifies this
      ensures ok == !WriteFails(faults, old(writes))
      ensures writes == old(writes) + 1
      ensures Snapshot() == if ok then Apply(old(Snapshot()), w) else old(Snapshot())
    {
      ok := !WriteFails(faults, writes);
      if ok {
        var c := Apply(Snapshot(), w);
        tasks, models, uploads := c.tasks, c.models, c.uploads;
      }
      writes := writes + 1;
    }
  }

  /** What a file on disk holds: text, raw bytes, or a serialised configuration document. */
  datatype File = TextFile(text: string) | BinaryFile(bytes: seq<byte>) | YamlFile(doc: Yaml.Value)

  /** The local filesystem: files by path, directories, and the order in which files were written. */
  class FileSystem {
    var files: map<string, File>
    var dirs: set<string>
    var log: seq<string>

    constructor (files: map<string, File>, dirs: set<string>)
      ensures this.files == files && this.dirs == dirs && log == []
    {
      this.files, this.dirs, log := files, dirs, [];
    }

    /** `os.path.exists`: true for files and for directories. */
    predicate Exists(path: string)
      reads this
    {
      path in files || path in dirs
    }

    /** `os.makedirs(path, exist_ok=True)`. */
    method MakeDirs(path: string)
      modifies this
      ensures dirs == old(dirs) + {path}
      ensures files == old(files) && log == old(log)
    {
      dirs := dirs + {path};
    }

    /** `open(path, "w").write(...)`: creates or truncates the file. */
    method WriteFile(path: string, content: File)
      modifies this
      ensures files == old(files)[path := content]
      ensures log == old(log) + [path]
      ensures dirs == old(dirs)
    {
      files := files[path := content];
      log := log + [path];
    }
  }

  /** The R2 object store: object bodies by (bucket, key). */
  class ObjectStore {
    var objects: map<(string, string), seq<byte>>

    constructor (objects: map<(string, string), seq<byte>>)
      ensures this.objects == objects
    {
      this.objects := objects;
    }

    method Put(bucket: string, key: string, body: seq<byte>)
      modifies this
      ensures objects == old(objects)[(bucket, key) := body]
    {
      objects := objects[(bucket, key) := body];
    }
  }
}
