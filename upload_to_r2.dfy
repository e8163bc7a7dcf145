/** `my_scripts/upload_to_r2.py`: `CloudflareR2Service`, which uploads a buffer with up to three
    attempts and records each successful upload in the `cloudflare_r2` collection, and downloads
    an object to a local path unless the path already exists. */
module UploadToR2 {
  import opened Base
  import opened Externals

  const MaxAttempts: nat := 3

  /** The response metadata `put_object` returns. */
  datatype PutResponse = PutResponse(etag: string)

  /** What `put_object` does on one attempt: succeed, raise botocore's `ClientError`, or raise
      any other exception. */
  datatype PutOutcome = PutOk(response: PutResponse) | PutClientError | PutOtherError

  /** The calls `store_file` makes, in order. */
  datatype StoreEvent = Put(attempt: nat) | Inserted(record: UploadRecord) | InsertRaised | Slept

  /** How `store_file` ends: the response returned, an exception raised, or falling off the end of
      the loop (Python's implicit `None`, which the retry logic makes unreachable). */
  datatype StoreResult = Stored(response: PutResponse) | StoreRaised(e: Exc) | NoResponse

  /** The part of the world `store_file` changes. */
  datatype StoreState = StoreState(writes: nat, uploads: seq<UploadRecord>, objects: map<(string, string), seq<byte>>)

  /** An attempt whose put succeeds: the object is stored and the metadata insert issued; the
      insert's failure is raised, not retried. */
  function StoreAttempt(attempt: nat, bucketName: string, key: string, buffer: seq<byte>, contentType: string,
                        response: PutResponse, faults: seq<bool>, st: StoreState): (StoreResult, seq<StoreEvent>, StoreState)
  {
    var objects := st.objects[(bucketName, key) := buffer];
    var record := UploadRecord(bucketName, key, contentType);
    if WriteFails(faults, st.writes)
    then (StoreRaised(DatabaseError), [Put(attempt), InsertRaised], StoreState(st.writes + 1, st.uploads, objects))
    else (Stored(response), [Put(attempt), Inserted(record)], StoreState(st.writes + 1, st.uploads + [record], objects))
  }

  /** The loop of `store_file` from attempt `attempt` on: its result, the calls it makes and the
      world it leaves. */
  function StoreFrom(attempt: nat, bucketName: string, key: string, buffer: seq<byte>, contentType: string,
                     puts: seq<PutOutcome>, faults: seq<bool>, st: StoreState): (StoreResult, seq<StoreEvent>, StoreState)
    requires 1 <= attempt && |puts| == MaxAttempts
    decreases MaxAttempts + 1 - attempt
  {
    if attempt > MaxAttempts then (NoResponse, [], st)
    else match puts[attempt - 1]
      case PutOk(response) => StoreAttempt(attempt, bucketName, key, buffer, contentType, response, faults, st)
      case PutClientError =>
        if attempt == MaxAttempts then (StoreRaised(ClientError), [Put(attempt)], st)
        else
          var (r, events, st') := StoreFrom(attempt + 1, bucketName, key, buffer, contentType, puts, faults, st);
          (r, [Put(attempt), Slept] + events, st')
      case PutOtherError =>
        (StoreRaised(OtherStorageError), [Put(attempt)], st)
  }

  /** The attempt at which the loop stops: the first from `attempt` on whose put does not raise
      `ClientError`, or the last attempt. */
  function StopAttempt(puts: seq<PutOutcome>, attempt: nat): (s: nat)
    requires 1 <= attempt <= MaxAttempts && |puts| == MaxAttempts
    ensures attempt <= s <= MaxAttempts
    ensures forall j :: attempt - 1 <= j < s - 1 ==> puts[j].PutClientError?
    ensures s < MaxAttempts ==> !puts[s - 1].PutClientError?
    decreases MaxAttempts - attempt
  {
    if attempt == MaxAttempts || !puts[attempt - 1].PutClientError? then attempt
    else StopAttempt(puts, attempt + 1)
  }

  function CountPuts(events: seq<StoreEvent>): nat {
    if events == [] then 0 else (if events[0].Put? then 1 else 0) + CountPuts(events[1..])
  }

  function CountSleeps(events: seq<StoreEvent>): nat {
    if events == [] then 0 else (if events[0] == Slept then 1 else 0) + CountSleeps(events[1..])
  }

  /** Every sleep lies between a put and the next put. */
  predicate SleepsBetweenPuts(events: seq<StoreEvent>) {
    forall j :: 0 <= j < |events| && events[j] == Slept ==>
      0 < j && events[j - 1].Put? && j + 1 < |events| && events[j + 1].Put?
  }

  /** At most one metadata insert, made as the last call, right after a put. */
  predicate InsertLast(events: seq<StoreEvent>) {
    forall j :: 0 <= j < |events| && (events[j].Inserted? || events[j].InsertRaised?) ==>
      j == |events| - 1 && 0 < j && events[j - 1].Put?
  }

  /** Prefixing a put and a sleep to the calls of the next attempts keeps their order properties. */
  lemma RetryEvents(attempt: nat, rest: seq<StoreEvent>)
    requires rest != [] && rest[0].Put? && SleepsBetweenPuts(rest) && InsertLast(rest)
    ensures var events := [Put(attempt), Slept] + rest;
      && CountPuts(events) == CountPuts(rest) + 1
      && CountSleeps(events) == CountSleeps(rest) + 1
      && SleepsBetweenPuts(events) && InsertLast(events)
  {
    var events := [Put(attempt), Slept] + rest;
    assert events[1..] == [Slept] + rest;
    assert events[1..][1..] == rest;
    forall j | 0 <= j < |events| && events[j] == Slept
      ensures 0 < j && events[j - 1].Put? && j + 1 < |events| && events[j + 1].Put?
    {
      if j > 1 { assert events[j] == rest[j - 2]; }
    }
    forall j | 0 <= j < |events| && (events[j].Inserted? || events[j].InsertRaised?)
      ensures j == |events| - 1 && 0 < j && events[j - 1].Put?
    {
      assert j > 1 && events[j] == rest[j - 2];
    }
  }

  /** The whole behaviour of the loop from `attempt`, with s the stopping attempt: s - attempt + 1
      puts with a sleep between consecutive ones; then, by the outcome of put s, `ClientError`
      re-raised (only at the last attempt), any other put error raised, or the object stored and
      one insert issued, which either records (bucket, key, content type) and returns the put's
      response or raises the database error. */
  lemma {:induction false} StoreFromBehaviour(attempt: nat, bucketName: string, key: string, buffer: seq<byte>, contentType: string,
                                              puts: seq<PutOutcome>, faults: seq<bool>, st: StoreState)
    requires 1 <= attempt <= MaxAttempts && |puts| == MaxAttempts
    ensures var (r, events, st') := StoreFrom(attempt, bucketName, key, buffer, contentType, puts, faults, st);
      var s := StopAttempt(puts, attempt);
      && CountPuts(events) == s - attempt + 1
      && CountSleeps(events) == s - attempt
      && SleepsBetweenPuts(events)
      && InsertLast(events)
      && (puts[s - 1].PutClientError? ==> s == MaxAttempts && r == StoreRaised(ClientError) && st' == st)
      && (puts[s - 1].PutOtherError? ==> r == StoreRaised(OtherStorageError) && st' == st)
      && (puts[s - 1].PutOk? ==>
            && st'.objects == st.objects[(bucketName, key) := buffer]
            && st'.writes == st.writes + 1
            && (WriteFails(faults, st.writes) ==> r == StoreRaised(DatabaseError) && st'.uploads == st.uploads)
            && (!WriteFails(faults, st.writes) ==>
                  r == Stored(puts[s - 1].response) && st'.uploads == st.uploads + [UploadRecord(bucketName, key, contentType)]))
    decreases MaxAttempts - attempt
  {
    var (r, events, st') := StoreFrom(attempt, bucketName, key, buffer, contentType, puts, faults, st);
    if puts[attempt - 1].PutClientError? && attempt < MaxAttempts {
      StoreFromBehaviour(attempt + 1, bucketName, key, buffer, contentType, puts, faults, st);
      var (r1, events1, st1) := StoreFrom(attempt + 1, bucketName, key, buffer, contentType, puts, faults, st);
      assert events1 != [] && events1[0].Put? by {
        assert StoreFrom(attempt + 1, bucketName, key, buffer, contentType, puts, faults, st).1[0] == Put(attempt + 1);
      }
      RetryEvents(attempt, events1);
    } else if |events| == 1 {
      assert events[1..] == [];
    } else {
      assert |events| == 2 && events[1..][1..] == [];
      assert events[0].Put? && !events[1].Put? && events[1] != Slept;
      assert CountPuts(events[1..]) == 0 && CountSleeps(events[1..]) == 0;
    }
  }

  /** The behaviour of a whole `store_file` call. */
  lemma StoreFileBehaviour(bucketName: string, key: string, buffer: seq<byte>, contentType: string,
                           puts: seq<PutOutcome>, faults: seq<bool>, st: StoreState)
    requires |puts| == MaxAttempts
    ensures var (r, events, st') := StoreFrom(1, bucketName, key, buffer, contentType, puts, faults, st);
      && CountPuts(events) <= MaxAttempts
      && CountSleeps(events) <= MaxAttempts - 1
      && CountSleeps(events) == CountPuts(events) - 1
      && SleepsBetweenPuts(events) && InsertLast(events)
      && r != NoResponse
      && (r.Stored? ==> st'.uploads == st.uploads + [UploadRecord(bucketName, key, contentType)])
      && (!r.Stored? ==> st'.uploads == st.uploads)
      && (r == StoreRaised(ClientError) <==> forall j :: 0 <= j < MaxAttempts ==> puts[j].PutClientError?)
  {
    StoreFromBehaviour(1, bucketName, key, buffer, contentType, puts, faults, st);
  }

  /** A transient `ClientError` on the first two attempts and a success on the third: the file is
      stored and exactly one upload record is added. */
  lemma TwoTransientFailures(bucketName: string, key: string, buffer: seq<byte>, contentType: string,
                             response: PutResponse, faults: seq<bool>, st: StoreState)
    requires !WriteFails(faults, st.writes)
    ensures var (r, events, st') := StoreFrom(1, bucketName, key, buffer, contentType,
                                              [PutClientError, PutClientError, PutOk(response)], faults, st);
      && r == Stored(response)
      && st'.uploads == st.uploads + [UploadRecord(bucketName, key, contentType)]
      && events == [Put(1), Slept, Put(2), Slept, Put(3), Inserted(UploadRecord(bucketName, key, contentType))]
  {
  }

  /** The response `get_object` returns, with the body it carries. */
  datatype GetResponse = GetResponse(body: seq<byte>)

  datatype GetResult = Got(response: GetResponse) | GetRaised(e: Exc)

  /** The files after writing `body` to `path` unless something already exists there. */
  function WriteIfAbsent(files: map<string, File>, dirs: set<string>, path: string, body: seq<byte>): map<string, File> {
    if path in files || path in dirs then files else files[path := BinaryFile(body)]
  }

  /** Fetching again never replaces what a first fetch left at the path. */
  lemma WriteIfAbsentIdempotent(files: map<string, File>, dirs: set<string>, path: string, b1: seq<byte>, b2: seq<byte>)
    ensures WriteIfAbsent(WriteIfAbsent(files, dirs, path, b1), dirs, path, b2) == WriteIfAbsent(files, dirs, path, b1)
  {
  }

  class CloudflareR2Service {
    /** The `cloudflare_r2` collection lives in this database. */
    const db: Database
    /** The R2 account behind the S3 client. */
    const storage: ObjectStore

    constructor (db: Database, storage: ObjectStore)
      ensures this.db == db && this.storage == storage
    {
      this.db := db;
      this.storage := storage;
    }

    /** The body of an attempt whose put succeeds: store the object, then insert its metadata. */
    method PutAndRecord(attempt: nat, bucketName: string, key: string, buffer: seq<byte>, contentType: string,
                        response: PutResponse)
      returns (result: StoreResult, events: seq<StoreEvent>)
      modifies db, storage
      ensures (result, events, StoreState(db.writes, db.uploads, storage.objects))
        == StoreAttempt(attempt, bucketName, key, buffer, contentType, response, db.faults,
                        StoreState(old(db.writes), old(db.uploads), old(storage.objects)))
      ensures db.tasks == old(db.tasks) && db.models == old(db.models)
    {
      storage.Put(bucketName, key, buffer);
      var record := UploadRecord(bucketName, key, contentType);
      var ok := db.Issue(InsertUpload(record));
      if ok {
        events := [Put(attempt), Inserted(record)];
        result := Stored(response);
      } else {
        events := [Put(attempt), InsertRaised];
        result := StoreRaised(DatabaseError);
      }
    }

    /** `store_file`: up to three attempts of put-then-insert; only `ClientError` is retried, with
        a sleep before the next attempt. `puts` gives what `put_object` does on each attempt. */
    method StoreFile(bucketName: string, key: string, buffer: seq<byte>, contentType: string, puts: seq<PutOutcome>)
      returns (result: StoreResult, events: seq<StoreEvent>)
      requires |puts| == MaxAttempts
      modifies db, storage
      ensures (result, events, StoreState(db.writes, db.uploads, storage.objects))
        == StoreFrom(1, bucketName, key, buffer, contentType, puts, db.faults,
                     StoreState(old(db.writes), old(db.uploads), old(storage.objects)))
      ensures db.tasks == old(db.tasks) && db.models == old(db.models)
    {
      ghost var start := StoreState(db.writes, db.uploads, storage.objects);
      ghost var whole := StoreFrom(1, bucketName, key, buffer, contentType, puts, db.faults, start);
      events := [];
      assert events + whole.1 == whole.1;
      for attempt := 1 to MaxAttempts + 1
        invariant db.tasks == old(db.tasks) && db.models == old(db.models)
        invariant StoreState(db.writes, db.uploads, storage.objects) == start
        invariant var rest := StoreFrom(attempt, bucketName, key, buffer, contentType, puts, db.faults, start);
          whole == (rest.0, events + rest.1, rest.2)
      {
        ghost var rest := StoreFrom(attempt, bucketName, key, buffer, contentType, puts, db.faults, start);
        ghost var before := events;
        match puts[attempt - 1]
        case PutOk(response) =>
          var tail;
          result, tail := PutAndRecord(attempt, bucketName, key, buffer, contentType, response);
          events := events + tail;
          return;
        case PutClientError =>
          events := events + [Put(attempt)];
          if attempt == MaxAttempts {
            result := StoreRaised(ClientError);
            assert events == before + rest.1;
            return;
          }
          events := events + [Slept];
          ghost var next := StoreFrom(attempt + 1, bucketName, key, buffer, contentType, puts, db.faults, start);
          assert rest.1 == [Put(attempt), Slept] + next.1;
          assert before + rest.1 == events + next.1;
        case PutOtherError =>
          events := events + [Put(attempt)];
          result := StoreRaised(OtherStorageError);
          assert events == before + rest.1;
          return;
      }
      result := NoResponse;
    }

    /** `get_file`: always fetch the object; write its body only when nothing exists at
        `downloadPath`; return the response either way. `reachable` is whether the storage
        service answers at all: a failed connection is not a `ClientError`, so it escapes the
        handler; a missing key is a `ClientError`, printed and re-raised. */
    method GetFile(bucketName: string, key: string, downloadPath: string, fs: FileSystem, reachable: bool)
      returns (result: GetResult, fetched: seq<(string, string)>)
      modifies fs
      ensures fetched == [(bucketName, key)]
      ensures !reachable ==>
        result == GetRaised(OtherStorageError) && fs.files == old(fs.files) && fs.log == old(fs.log)
      ensures reachable && (bucketName, key) !in storage.objects ==>
        result == GetRaised(ClientError) && fs.files == old(fs.files) && fs.log == old(fs.log)
      ensures reachable && (bucketName, key) in storage.objects ==>
        var body := storage.objects[(bucketName, key)];
        && result == Got(GetResponse(body))
        && fs.files == WriteIfAbsent(old(fs.files), old(fs.dirs), downloadPath, body)
        && fs.log == old(fs.log) + (if old(fs.Exists(downloadPath)) then [] else [downloadPath])
      ensures fs.dirs == old(fs.dirs)
    {
      fetched := [(bucketName, key)];
      if !reachable {
        // a connection failure is not a `ClientError`: it escapes the handler
        result := GetRaised(OtherStorageError);
        return;
      }
      if (bucketName, key) !in storage.objects {
        result := GetRaised(ClientError);
        return;
      }
      var response := GetResponse(storage.objects[(bucketName, key)]);
      var body := response.body;
      if fs.Exists(downloadPath) {
        // already present: left untouched
      } else {
        fs.WriteFile(downloadPath, BinaryFile(body));
      }
      result := Got(response);
    }
  }
}
