# ai-toolkit task driver, modelled in Dafny

This project models the decision logic of the ai-toolkit task driver. The driver takes a training task stored in MongoDB, prepares its config and dataset, runs the external trainer, uploads artifacts to Cloudflare R2, and records the task's and model's status. Every external system becomes a value:

- **MongoDB.** A `Database` object holds the `tasks` map (keyed by `_id`), the `models` sequence (natural order, so `find_one`/`update_one` act on the first match) and the `cloudflare_r2` records. Whether each write succeeds comes from a fault script given up front.
- **Local filesystem.** A `FileSystem` object maps paths to files, holds a directory set, and logs writes in order.
- **R2 object store.** An `ObjectStore` object maps `(bucket, key)` to bytes. What `put_object` does on each attempt, and whether `get_object` reaches the service, are inputs.
- **HTTP.** A total function from URL to `(status, body)`.
- **Environment.** `TASK_ID` and `ROOT_FOLDER` are optional strings. An unset variable renders as `None`, as in a Python f-string.
- **Trainer.** Each config file is paired with the outcome of its `get_job`/`run`/`cleanup`.

Modules:

- `Base`: `Option`, bytes, environment rendering.
- `Text`: decimal rendering of counters and its round trip.
- `Yaml`: the nested config value, with path `Get`/`Set` and their algebra.
- `Externals`: documents, exceptions, the database, the filesystem and the object store.
- `PrepareConfig`: `my_scripts/prepare_config.py`.
- `UploadToR2`: `my_scripts/upload_to_r2.py`.
- `Run`: `run.py`, with pure specification functions and an imperative `RunMain` proved equal to them.
- `RunProperties`: what the orchestrator does, as lemmas.

## Paths worth knowing

- **Completion path.** The task-completed loop returns from `main` on its first successful update (run.py:146). So on the success path the model is never set to `ready`. The model-ready loop (run.py:173) is reached only after a failed try-block attempt. After that, the loop never starts a second iteration (`RunProperties.TaskLoopOneAttempt`).
- **Duplicated update.** It is issued only inside the exception handler, after a failed attempt, not on every attempt.
- **Upload branch.** It always raises (`RunProperties.UploadGuardRaises`):
  - A missing artifact hits a bare `raise` with no exception being handled, which is a `RuntimeError`.
  - A present artifact reaches `get_file_as_buffer`. That function is defined after the module calls `main()`, so the call is a `NameError`.
  - As a result, `store_file` is never reached from `main`.
- **Failure path.** The summary is printed before the task and model are marked failed.
- **`store_file`.** A failing metadata insert is not a `ClientError`, so it escapes at once rather than being retried.
- **`get_file`.** It always calls `get_object`. Only the filesystem write depends on whether the path exists.

## Model

| member | source | states |
|---|---|---|
| Text.DecimalRoundTrip | run.py:34-35 | the decimal text of a counter reads back as that counter |
| Text.NatToStringInjective | run.py:34-35 | different counters render differently |
| Yaml.GetSetSame | my_scripts/prepare_config.py:113-116 | after assigning along an assignable path, reading that path gives the value assigned |
| Yaml.GetSetOther | my_scripts/prepare_config.py:113-116 | assigning along a path leaves every disjoint path's entry unchanged |
| Yaml.CanSetOther | my_scripts/prepare_config.py:113-116 | assigning along a path keeps every disjoint path assignable |
| Yaml.SetSet | my_scripts/prepare_config.py:113-116 | a second assignment to the same path overrides the first |
| Yaml.SetCommute | my_scripts/prepare_config.py:113-116 | assignments to disjoint paths commute |
| Externals.FindModelByTask | run.py:97 | a model is found whenever one belongs to the task; a found model belongs to the task and is the first such document in collection order |
| Externals.Database.Issue | run.py:124-144 | the k-th write fails exactly when the fault script says so; a successful write is applied, a failed one leaves the collections unchanged |
| Externals.FileSystem.WriteFile | my_scripts/prepare_config.py:145-146 | the file at the path is replaced and the write is logged; directories are unchanged |
| Externals.FileSystem.MakeDirs | my_scripts/prepare_config.py:162 | the directory exists afterwards; files are unchanged |
| Externals.ObjectStore.Put | my_scripts/upload_to_r2.py:35-40 | the object under (bucket, key) becomes the body |
| PrepareConfig.TemplateAssignable | my_scripts/prepare_config.py:11-88 | the template has all four target entries, and each can be assigned |
| PrepareConfig.TargetsDisjoint | my_scripts/prepare_config.py:113-116 | no two of the four target paths overlap |
| PrepareConfig.FillWritesFour | my_scripts/prepare_config.py:113-116 | after filling, `config.name`, `process[0].trigger_word`, `process[0].sample.prompts` (as `[prompt]`) and `process[0].datasets[0].folder_path` hold the new values |
| PrepareConfig.FillKeepsOthers | my_scripts/prepare_config.py:11-88 | every entry on a path disjoint from the four keeps its previous value |
| PrepareConfig.FillTwice | my_scripts/prepare_config.py:113-116 | refilling the shared dictionary gives what filling the template once would; nothing carries over from an earlier call |
| PrepareConfig.PromptText | my_scripts/prepare_config.py:107-110 | `female` gets the woman prompt in full; every other value gets the man prompt |
| PrepareConfig.PromptInjective | my_scripts/prepare_config.py:107-110 | the prompt determines the task id and which branch was taken |
| PrepareConfig.JoinPathShape | my_scripts/prepare_config.py:121-122 | POSIX `os.path.join`: the result always ends with the second part; an absolute second part is the whole result; otherwise the result starts with the first part and one `/` is inserted exactly when the first part is non-empty and does not already end in `/` |
| PrepareConfig.ConfigPathAbsolute | my_scripts/prepare_config.py:118-122 | with an absolute `ROOT_FOLDER`, the config file is `{ROOT_FOLDER}/config/{taskId}.yml` |
| PrepareConfig.ConfigPathUnset | my_scripts/prepare_config.py:98 | with `ROOT_FOLDER` unset, the dataset goes to `None/dataset/{taskId}` and, for any script directory not ending in `/`, the config goes to `{scriptDir}/None/config` |
| PrepareConfig.IndexedPathInjective | my_scripts/prepare_config.py:144 | distinct (index, extension) pairs give distinct dataset file paths |
| PrepareConfig.DownloadImage | my_scripts/prepare_config.py:139-149 | `{folder}/{index}.jpeg` is written with the body exactly when the status is 200, and its path is returned; otherwise nothing is written and nothing returned |
| PrepareConfig.CreateTextFile | my_scripts/prepare_config.py:151-156 | `{folder}/{index}.txt` is written with content exactly the word, and its path is returned |
| PrepareConfig.ScheduleJobs | my_scripts/prepare_config.py:165-170 | 2N jobs: for URL i, first its download with index i, then its text file with index i |
| PrepareConfig.Gather | my_scripts/prepare_config.py:172 | the files become the union of what each job writes; the log grows in job order |
| PrepareConfig.ScheduledWrites | my_scripts/prepare_config.py:167-172 | running the scheduled jobs writes the dataset of the URLs, URL by URL |
| PrepareConfig.StoreDataset | my_scripts/prepare_config.py:158-172 | the folder is created, and the files gain exactly the dataset of the URLs |
| PrepareConfig.DatasetLayout | my_scripts/prepare_config.py:139-172 | the written paths are the N text paths and the served image paths. Every text file holds the task id. Image i exists exactly when URL i answered 200, and holds its body. So there are N text files and at most N images, and no path is both |
| PrepareConfig.ConfigForTask | my_scripts/prepare_config.py:113-116 | the filled config names the task, uses its id as trigger word, samples with the prompt for its gender and trains on `{ROOT_FOLDER}/dataset/{taskId}` |
| PrepareConfig.ConfigModule.constructor | my_scripts/prepare_config.py:11-88 | the module dictionary starts as the template |
| PrepareConfig.ConfigModule.PrepareConfig | my_scripts/prepare_config.py:90-134 | a missing task raises the not-found `ValueError` with nothing written and nothing changed. Otherwise the dataset is stored first, the dictionary becomes the filled template, and `{taskId}.yml` is written last into the created config directory |
| UploadToR2.StopAttempt | my_scripts/upload_to_r2.py:32-60 | the attempt at which the loop stops: every earlier put raised `ClientError` |
| UploadToR2.StoreFromBehaviour | my_scripts/upload_to_r2.py:32-64 | from any attempt: puts up to the stopping attempt, one sleep between consecutive puts, and at most one insert, made last, right after a put. A final `ClientError` is re-raised only at attempt 3; any other put error escapes. A successful put stores the object and issues one insert, which either records (bucket, key, content type) and returns that put's response, or escapes |
| UploadToR2.StoreFileBehaviour | my_scripts/upload_to_r2.py:28-64 | at most 3 puts and at most 2 sleeps, always one sleep fewer than puts. The loop never falls off its end. A record is added exactly when the call returns a response. `ClientError` comes out exactly when all three puts raised it |
| UploadToR2.TwoTransientFailures | my_scripts/upload_to_r2.py:32-64 | `ClientError`, `ClientError`, then success: the third response is returned and exactly one record is added, after the calls put, sleep, put, sleep, put, insert |
| UploadToR2.WriteIfAbsentIdempotent | my_scripts/upload_to_r2.py:74-78 | fetching again never replaces what an earlier fetch left at the path |
| UploadToR2.CloudflareR2Service.constructor | my_scripts/upload_to_r2.py:12-13 | the service talks to the given database and object store |
| UploadToR2.CloudflareR2Service.StoreFile | my_scripts/upload_to_r2.py:28-64 | result, calls, write count, records and objects are those of the retry loop; tasks and models are untouched |
| UploadToR2.CloudflareR2Service.PutAndRecord | my_scripts/upload_to_r2.py:35-53 | an attempt whose put succeeds: the object is stored, then one insert is issued; its success records (bucket, key, content type) and returns the response, its failure raises the database error |
| UploadToR2.CloudflareR2Service.GetFile | my_scripts/upload_to_r2.py:65-83 | `get_object` is always called first. An unreachable service raises a storage error other than `ClientError`, which escapes the handler; a missing key raises `ClientError`, which the handler prints and re-raises; neither writes anything. Otherwise the body is written only when nothing exists at the path, and the response is returned either way |
| Run.EndMessage | run.py:33-44 | 5 lines, or 6 when something failed: blank, rule, `Result:`, the always-present completed line, the failure line only when `jobs_failed > 0`, rule |
| RunProperties.CountedWord | run.py:34-35 | the shape both summary texts share: the count's digits read back as the count, then the word, then one `s` exactly when the count is not 1, and nothing else |
| RunProperties.FailureStringMeaning | run.py:34 | empty exactly when `jobs_failed == 0`; otherwise the leading digits read back as the count, then ` failure`, then a single `s` exactly when the count is not 1 and nothing else |
| RunProperties.CompletedStringMeaning | run.py:35 | never empty, so its line is always printed; the leading digits read back as the count, then ` completed job`, then a single `s` exactly when the count is not 1 and nothing else |
| RunProperties.EndMessageInjective | run.py:33-44 | the summary determines both counters |
| RunProperties.CompletedStringInjective | run.py:35 | different completed counts give different texts |
| RunProperties.FailureStringInjective | run.py:34 | different positive failure counts give different texts |
| Run.IssueWrite | run.py:124 | one `update_one`: the outcome the script gives, applied when it succeeds, and recorded in the trace |
| Run.MarkModelReady | run.py:173-195 | the model-ready retry loop behaves as its specification `ModelLoop` |
| Run.CompleteTask | run.py:121-195 | the task-completed retry loop, with the model-ready loop in its body, behaves as `TaskLoop` |
| Run.HandleFailure | run.py:198-224 | the failure handler without `--recover` behaves as `Handler` |
| Run.RunTryBody | run.py:88-195 | one config's `try` block behaves as `TryBody`: job start, job, lookups, upload guard and task-completed loop, with `jobs_completed` incremented once the job returns |
| Run.RunMain | run.py:47-224 | exit, database and trace are those of `MainSpec`: the empty-list error, then the per-config loop with its counters, upload guard, retry loops and handler |
| RunProperties.ModelLoopEnds | run.py:173-195 | the model-ready loop never falls off its end. It returns after a successful ready update or raises the database error, and adds only ready updates of that model and sleeps. Tasks and uploads are untouched; the models are either untouched or read as after one ready update, and after a return the model with that `_id` reads ready with every other model unchanged |
| RunProperties.TaskLoopOneAttempt | run.py:121-173 | only one try-block attempt is ever made. If it succeeds, `main` returns after exactly that write, with nothing else done. If it fails, the calls are that write, a sleep and the same update again outside the `try`. Then either the database error is raised or only model-ready updates and sleeps follow. The loop never falls off its end |
| RunProperties.TaskLoopRetried | run.py:148-195 | after a failed first update: a sleep and the same update outside the `try`; its failure raises with nothing more done, its success enters the model-ready loop, which returns or raises. Once the repeated update succeeds every task reads as after that one completion write, and after a return the model reads ready with every other model unchanged |
| RunProperties.SuccessRecordsResult | run.py:100 | on the success path the task reads completed, progress 100, with `modelUrl` `https://loras.cheeryclick.com/{key}`, bucket `loras`, no optimized keys and `[key]` as original keys; models are left as they were |
| RunProperties.UploadGuardRaises | run.py:103-120 | a task without a result raises with nothing written: `RuntimeError` when the artifact is missing, `NameError` for `get_file_as_buffer` when it exists |
| RunProperties.AfterJobCompletes | run.py:95-146 | for a task with a result and a model, a successful first write returns; the task reads completed with progress 100 and a result whose URL and original key are `{userId}/{modelId}.safetensors` under the loras host and bucket; models and uploads are unchanged |
| RunProperties.AfterJobEnds | run.py:95-195 | the rest of the try block never falls off its end, adds only writes and sleeps, never inserts an upload record, and returns only for a task that has a result and a model |
| RunProperties.TryBodyEnds | run.py:89-195 | one config's try block: one job start, then only writes and sleeps. `jobs_completed` grows exactly when the job succeeded. A raising job raises its own exception with nothing written |
| RunProperties.FirstByTaskSetStatus | run.py:218-222 | changing a model's status does not change which model is first for a task |
| RunProperties.FirstByIdSetStatus | run.py:176 | changing a model's status does not change which model is first for an `_id` |
| RunProperties.ReadyTwice | run.py:176-195 | a second ready update of the same model changes nothing more |
| RunProperties.HandlerOutcome | run.py:198-224 | the summary is printed first and the handler always raises. A missing task raises the not-found `ValueError` with no write. A failing first write raises the database error with nothing changed. A failing second write raises the database error with the task already marked failed and the models untouched. Otherwise the task reads failed with `completed` false and the exception as training log, the task's model reads failed, and the exception is re-raised. Each successful write changes exactly its one document: every other task and every other model is as it was, and with no model for the task the models are untouched |
| RunProperties.HandlerWrites | run.py:209-222 | with the task present: a successful first write marks the task failed with the exception as training log and leaves the models alone; a successful second write marks the task's first model failed; a failed write changes nothing; the new collections are stated whole, so no other task or model changes |
| RunProperties.RecoverNeverRaises | run.py:198-201 | with `--recover`, `main` never raises and never prints the summary, inserts no upload record, and counts at most one completed and one failed job per remaining config |
| RunProperties.RecoverAllJobsFail | run.py:88-201 | with `--recover` and every job raising: the database is untouched, nothing is counted completed, every config is counted failed, and one job start per config is recorded in order |
| RunProperties.MainRecoverAllJobsFail | run.py:79-201 | the same for the whole run: the header line, then one job start per config, with `jobs_failed` equal to the number of configs |
| RunProperties.NoRecoverFirstConfigOnly | run.py:88-224 | without `--recover` only the first config is started, and `jobs_completed <= 1`. `main` returns exactly when nothing failed. It raises exactly when `jobs_failed == 1`, and then the summary for the counters was printed. No upload record is inserted |
| RunProperties.NoRecoverFrom | run.py:88-224 | the same from any world holding one event, for the per-config loop alone |

## Left out

- `my_scripts/connect_mongo.py`: the client connection and ping. It is I/O setup, and the collections are given to the model directly.
- Environment and process setup (`load_dotenv`, `sys.path` and the environment flags at run.py:1-31): these have no effect on the modelled decisions.
- `get_s3_client`: credentials, endpoint and region only.
- `toolkit.job`: `get_job`, `job.run` and `job.cleanup` are foreign code. Each config carries their combined outcome.
- The `--name` option: it is only passed to `get_job`.
- argparse (`nargs='+'`): it already rejects an empty list. The guard at run.py:80-81 is modelled as written.
- The commented-out call to `prepare_config` in `main` (run.py:52): run.py never calls it, so `prepare_config` is modelled on its own.
- `ObjectId` conversion:
  - Ids are compared as strings.
  - An unset `TASK_ID` becomes a fresh id that matches nothing.
  - A malformed id string raising `InvalidId` is not modelled.
- Missing document fields (`KeyError` on `task['userId']`, `task['processingStartedAt']`, `metadata`): documents are records with every field present.
- Timestamps: `updatedAt`, `processingCompletedAt`, the float `completedIn` duration, `uploadedAt` and the generated `_id` of upload records.
- Sleep durations: only the sleep itself is recorded.
- Real MongoDB, boto3 and aiohttp calls:
  - Their outcomes are inputs.
  - A failing `find_one`, `makedirs`/`open` failures, and connection errors of a download are not modelled.
  - The exception escaping `asyncio.gather` is not modelled either.
  - The concurrency of `gather` is modelled as a sequential pass, because the jobs write distinct files.
- Encoding of `trainingLog`: the handler at run.py:209 stores the exception object itself. By the documented behaviour of pymongo's default codec, BSON cannot encode an exception object and `update_one` raises `InvalidDocument`. So in the deployed program that write would always fail. The model treats the write's outcome as an input like every other write, so both outcomes are covered.
- `yaml.dump`'s bytes: the config file holds the nested value itself.
- `os.makedirs` creating intermediate directories: only the named directory is recorded.
- Log and progress prints: only `print_end_message`'s lines and the `Running N jobs` line are recorded.
- `Run.RunMain` tracks `jobs_completed` and `jobs_failed` only through their effect, the printed summary. Its ensures relates the exit, database and trace to `MainSpec`; the counters themselves appear in the lemmas about `MainSpec`.
