/** `my_scripts/prepare_config.py`: the training-configuration template, the per-task fields written
    into it, and the dataset folder of one `{i}.jpeg` / `{i}.txt` pair per source URL. */
module PrepareConfig {
  import opened Base
  import opened Text
  import opened Yaml
  import opened Externals

  // ---------------------------------------------------------------- the template

  /** The module-level `config_data` dictionary as the module defines it, built from its
      nested sections. */
  const Template: Value :=
    Dict(map[
      "job" := Str("extension"),
      "config" := ConfigSection,
      "meta" := Dict(map[
        "name" := Str("[name]"),
        "version" := Str("1.0")])])

  const ConfigSection: Value :=
    Dict(map[
      "name" := Str("my_first_flux_lora_v1"),
      "process" := List([Process0])])

  const Process0: Value :=
    Dict(map[
      "type" := Str("sd_trainer"),
      "training_folder" := Str("output"),
      "device" := Str("cuda:0"),
      "trigger_word" := Str(""),
      "network" := Dict(map[
        "type" := Str("lora"),
        "linear" := Int(16),
        "linear_alpha" := Int(16)]),
      "save" := Dict(map[
        "dtype" := Str("float16"),
        "save_every" := Int(10),
        "max_step_saves_to_keep" := Int(2),
        "push_to_hub" := Bool(false)]),
      "datasets" := List([Dataset0]),
      "train" := Dict(map[
        "batch_size" := Int(1),
        "steps" := Int(10),
        "gradient_accumulation_steps" := Int(1),
        "train_unet" := Bool(true),
        "train_text_encoder" := Bool(false),
        "gradient_checkpointing" := Bool(true),
        "noise_scheduler" := Str("flowmatch"),
        "optimizer" := Str("adamw8bit"),
        "lr" := Float(0.0001),
        "skip_first_sample" := Bool(true),
        "ema_config" := Dict(map[
          "use_ema" := Bool(true),
          "ema_decay" := Float(0.99)]),
        "dtype" := Str("bf16")]),
      "model" := Dict(map[
        "name_or_path" := Str("black-forest-labs/FLUX.1-dev"),
        "is_flux" := Bool(true),
        "quantize" := Bool(true),
        "low_vram" := Bool(true)]),
      "sample" := SampleSection])

  const Dataset0: Value :=
    Dict(map[
      "folder_path" := Str("/path/to/images/folder"),
      "caption_ext" := Str("txt"),
      "caption_dropout_rate" := Float(0.05),
      "shuffle_tokens" := Bool(false),
      "cache_latents_to_disk" := Bool(true),
      "resolution" := List([Int(512), Int(768), Int(1024)])])

  const SampleSection: Value :=
    Dict(map[
      "sampler" := Str("flowmatch"),
      "sample_every" := Int(10),
      "width" := Int(1024),
      "height" := Int(1024),
      "prompts" := List([]),
      "neg" := Str(""),
      "seed" := Int(42),
      "walk_seed" := Bool(true),
      "guidance_scale" := Int(4),
      "sample_steps" := Int(20)])

  /** The four entries `prepare_config` assigns. */
  const NamePath: Path := [Key("config"), Key("name")]
  const TriggerWordPath: Path := [Key("config"), Key("process"), At(0), Key("trigger_word")]
  const PromptsPath: Path := [Key("config"), Key("process"), At(0), Key("sample"), Key("prompts")]
  const FolderPathPath: Path := [Key("config"), Key("process"), At(0), Key("datasets"), At(0), Key("folder_path")]

  /** The values written into the four entries. */
  datatype Fields = Fields(name: string, triggerWord: string, prompt: string, folderPath: string)

  /** `config_data` after the four assignments, made in the order of the source. */
  function Fill(v: Value, f: Fields): Value {
    var v1 := Set(v, NamePath, Str(f.name));
    var v2 := Set(v1, TriggerWordPath, Str(f.triggerWord));
    var v3 := Set(v2, PromptsPath, List([Str(f.prompt)]));
    Set(v3, FolderPathPath, Str(f.folderPath))
  }

  predicate TargetPath(p: Path) {
    p == NamePath || p == TriggerWordPath || p == PromptsPath || p == FolderPathPath
  }

  lemma TargetsDisjoint(p: Path, q: Path)
    requires TargetPath(p) && TargetPath(q) && p != q
    ensures Disjoint(p, q)
  {
    assert NamePath[1] != TriggerWordPath[1];
    assert NamePath[1] != PromptsPath[1];
    assert NamePath[1] != FolderPathPath[1];
    assert TriggerWordPath[3] != PromptsPath[3];
    assert TriggerWordPath[3] != FolderPathPath[3];
    assert PromptsPath[3] != FolderPathPath[3];
  }

  lemma TemplateSections()
    ensures Child(Template, Key("config")) == Some(ConfigSection)
    ensures Child(ConfigSection, Key("process")) == Some(List([Process0]))
    ensures Child(List([Process0]), At(0)) == Some(Process0)
    ensures Child(Process0, Key("sample")) == Some(SampleSection)
    ensures Child(Process0, Key("datasets")) == Some(List([Dataset0]))
    ensures Child(List([Dataset0]), At(0)) == Some(Dataset0)
    ensures Child(ConfigSection, Key("name")).Some?
    ensures Child(Process0, Key("trigger_word")).Some?
    ensures Child(SampleSection, Key("prompts")).Some?
    ensures Child(Dataset0, Key("folder_path")).Some?
  {
  }

  /** One subscript into an existing child: the rest of the path is followed from that child. */
  lemma StepInto(v: Value, s: Step, c: Value, p: Path)
    requires Child(v, s) == Some(c) && p != []
    ensures CanSet(v, [s] + p) == CanSet(c, p)
    ensures Get(v, [s] + p) == Get(c, p)
  {
    assert ([s] + p)[0] == s;
    assert ([s] + p)[1..] == p;
  }

  /** A last subscript naming an existing dictionary entry can be read and assigned. */
  lemma LastKey(v: Value, k: string)
    requires Child(v, Key(k)).Some?
    ensures CanSet(v, [Key(k)]) && Get(v, [Key(k)]).Some?
  {
    assert [Key(k)][1..] == [];
  }

  lemma NameAssignable()
    ensures CanSet(Template, NamePath) && Get(Template, NamePath).Some?
  {
    TemplateSections();
    LastKey(ConfigSection, "name");
    StepInto(Template, Key("config"), ConfigSection, [Key("name")]);
    assert NamePath == [Key("config")] + [Key("name")];
  }

  lemma TriggerWordAssignable()
    ensures CanSet(Template, TriggerWordPath) && Get(Template, TriggerWordPath).Some?
  {
    TemplateSections();
    var p2 := [Key("trigger_word")];
    var p1 := [At(0)] + p2;
    var p0 := [Key("process")] + p1;
    LastKey(Process0, "trigger_word");
    StepInto(List([Process0]), At(0), Process0, p2);
    StepInto(ConfigSection, Key("process"), List([Process0]), p1);
    StepInto(Template, Key("config"), ConfigSection, p0);
    assert TriggerWordPath == [Key("config")] + p0;
  }

  lemma PromptsAssignable()
    ensures CanSet(Template, PromptsPath) && Get(Template, PromptsPath).Some?
  {
    TemplateSections();
    var p3 := [Key("prompts")];
    var p2 := [Key("sample")] + p3;
    var p1 := [At(0)] + p2;
    var p0 := [Key("process")] + p1;
    LastKey(SampleSection, "prompts");
    StepInto(Process0, Key("sample"), SampleSection, p3);
    StepInto(List([Process0]), At(0), Process0, p2);
    StepInto(ConfigSection, Key("process"), List([Process0]), p1);
    StepInto(Template, Key("config"), ConfigSection, p0);
    assert PromptsPath == [Key("config")] + p0;
  }

  lemma FolderPathAssignable()
    ensures CanSet(Template, FolderPathPath) && Get(Template, FolderPathPath).Some?
  {
    TemplateSections();
    var p4 := [Key("folder_path")];
    var p3 := [At(0)] + p4;
    var p2 := [Key("datasets")] + p3;
    var p1 := [At(0)] + p2;
    var p0 := [Key("process")] + p1;
    LastKey(Dataset0, "folder_path");
    StepInto(List([Dataset0]), At(0), Dataset0, p4);
    StepInto(Process0, Key("datasets"), List([Dataset0]), p3);
    StepInto(List([Process0]), At(0), Process0, p2);
    StepInto(ConfigSection, Key("process"), List([Process0]), p1);
    StepInto(Template, Key("config"), ConfigSection, p0);
    assert FolderPathPath == [Key("config")] + p0;
  }

  /** Each of the four assignments lands on an entry the template already has. */
  lemma TemplateAssignable()
    ensures CanSet(Template, NamePath) && CanSet(Template, TriggerWordPath)
    ensures CanSet(Template, PromptsPath) && CanSet(Template, FolderPathPath)
    ensures Get(Template, NamePath).Some? && Get(Template, TriggerWordPath).Some?
    ensures Get(Template, PromptsPath).Some? && Get(Template, FolderPathPath).Some?
  {
    NameAssignable();
    TriggerWordAssignable();
    PromptsAssignable();
    FolderPathAssignable();
  }

  /** The four assignments write exactly the four new values ... */
  lemma FillWritesFour(f: Fields)
    ensures Get(Fill(Template, f), NamePath) == Some(Str(f.name))
    ensures Get(Fill(Template, f), TriggerWordPath) == Some(Str(f.triggerWord))
    ensures Get(Fill(Template, f), PromptsPath) == Some(List([Str(f.prompt)]))
    ensures Get(Fill(Template, f), FolderPathPath) == Some(Str(f.folderPath))
  {
    TemplateAssignable();
    var v1 := Set(Template, NamePath, Str(f.name));
    var v2 := Set(v1, TriggerWordPath, Str(f.triggerWord));
    var v3 := Set(v2, PromptsPath, List([Str(f.prompt)]));
    TargetsDisjoint(NamePath, TriggerWordPath);
    TargetsDisjoint(NamePath, PromptsPath);
    TargetsDisjoint(NamePath, FolderPathPath);
    TargetsDisjoint(TriggerWordPath, PromptsPath);
    TargetsDisjoint(TriggerWordPath, FolderPathPath);
    TargetsDisjoint(PromptsPath, FolderPathPath);
    // each later path stays assignable after the earlier assignments
    CanSetOther(Template, NamePath, Str(f.name), TriggerWordPath);
    CanSetOther(Template, NamePath, Str(f.name), PromptsPath);
    CanSetOther(v1, TriggerWordPath, Str(f.triggerWord), PromptsPath);
    CanSetOther(Template, NamePath, Str(f.name), FolderPathPath);
    CanSetOther(v1, TriggerWordPath, Str(f.triggerWord), FolderPathPath);
    CanSetOther(v2, PromptsPath, List([Str(f.prompt)]), FolderPathPath);
    // each value is read back through the assignments made after it
    GetSetSame(Template, NamePath, Str(f.name));
    GetSetOther(v1, TriggerWordPath, Str(f.triggerWord), NamePath);
    GetSetOther(v2, PromptsPath, List([Str(f.prompt)]), NamePath);
    GetSetOther(v3, FolderPathPath, Str(f.folderPath), NamePath);
    GetSetSame(v1, TriggerWordPath, Str(f.triggerWord));
    GetSetOther(v2, PromptsPath, List([Str(f.prompt)]), TriggerWordPath);
    GetSetOther(v3, FolderPathPath, Str(f.folderPath), TriggerWordPath);
    GetSetSame(v2, PromptsPath, List([Str(f.prompt)]));
    GetSetOther(v3, FolderPathPath, Str(f.folderPath), PromptsPath);
    GetSetSame(v3, FolderPathPath, Str(f.folderPath));
  }

  /** ... and every entry on a path disjoint from the four is the template's. */
  lemma FillKeepsOthers(v: Value, f: Fields, q: Path)
    requires Disjoint(NamePath, q) && Disjoint(TriggerWordPath, q)
    requires Disjoint(PromptsPath, q) && Disjoint(FolderPathPath, q)
    ensures Get(Fill(v, f), q) == Get(v, q)
  {
    var v1 := Set(v, NamePath, Str(f.name));
    var v2 := Set(v1, TriggerWordPath, Str(f.triggerWord));
    var v3 := Set(v2, PromptsPath, List([Str(f.prompt)]));
    GetSetOther(v, NamePath, Str(f.name), q);
    GetSetOther(v1, TriggerWordPath, Str(f.triggerWord), q);
    GetSetOther(v2, PromptsPath, List([Str(f.prompt)]), q);
    GetSetOther(v3, FolderPathPath, Str(f.folderPath), q);
  }

  /** Filling an already filled template for another task gives what filling the original
      would: the module-level dictionary carries nothing over from an earlier call. */
  lemma FillTwice(v: Value, a: Fields, b: Fields)
    ensures Fill(Fill(v, a), b) == Fill(v, b)
  {
    var n, t, p, d := NamePath, TriggerWordPath, PromptsPath, FolderPathPath;
    var an, at, ap, ad := Str(a.name), Str(a.triggerWord), List([Str(a.prompt)]), Str(a.folderPath);
    var bn, bt, bp, bd := Str(b.name), Str(b.triggerWord), List([Str(b.prompt)]), Str(b.folderPath);
    TargetsDisjoint(n, t);
    TargetsDisjoint(n, p);
    TargetsDisjoint(n, d);
    TargetsDisjoint(t, p);
    TargetsDisjoint(t, d);
    TargetsDisjoint(p, d);
    var a1 := Set(v, n, an);
    var a2 := Set(a1, t, at);
    var a3 := Set(a2, p, ap);
    var a4 := Set(a3, d, ad);
    // move b's name assignment inward until it meets a's and overrides it
    SetCommute(a3, d, ad, n, bn);
    SetCommute(a2, p, ap, n, bn);
    SetCommute(a1, t, at, n, bn);
    SetSet(v, n, an, bn);
    var w1 := Set(v, n, bn);
    assert Set(a4, n, bn) == Set(Set(Set(w1, t, at), p, ap), d, ad);
    // the same for the trigger word
    var c2 := Set(w1, t, at);
    var c3 := Set(c2, p, ap);
    SetCommute(c3, d, ad, t, bt);
    SetCommute(c2, p, ap, t, bt);
    SetSet(w1, t, at, bt);
    var w2 := Set(w1, t, bt);
    assert Set(Set(a4, n, bn), t, bt) == Set(Set(w2, p, ap), d, ad);
    // the prompts
    var e3 := Set(w2, p, ap);
    SetCommute(e3, d, ad, p, bp);
    SetSet(w2, p, ap, bp);
    var w3 := Set(w2, p, bp);
    assert Set(Set(Set(a4, n, bn), t, bt), p, bp) == Set(w3, d, ad);
    // the dataset folder
    SetSet(w3, d, ad, bd);
  }

  // ---------------------------------------------------------------- prompt and paths

  /** The text after the task id in the two prompt templates. */
  const WomanSuffix: string := " a woman, close lookup, nice dress, nice gray background"
  const ManSuffix: string := " a man, close lookup, nice clothes, nice gray background"

  /** The sample prompt: the woman template exactly when the task's gender is `female`. */
  function Prompt(taskId: string, gender: string): string {
    if gender == "female" then "A nice picture of " + taskId + WomanSuffix
    else "A nice picture of " + taskId + ManSuffix
  }

  /** The two prompts in full, and the woman one for `female` only. */
  lemma PromptText(taskId: string, gender: string)
    ensures gender == "female" ==>
      Prompt(taskId, gender) == "A nice picture of " + taskId + " a woman, close lookup, nice dress, nice gray background"
    ensures gender != "female" ==>
      Prompt(taskId, gender) == "A nice picture of " + taskId + " a man, close lookup, nice clothes, nice gray background"
  {
  }

  lemma SuffixesDiffer()
    ensures |WomanSuffix| == |ManSuffix| && WomanSuffix != ManSuffix
  {
  }

  /** The prompt determines the task id and which of the two templates was chosen. */
  lemma PromptInjective(t1: string, g1: string, t2: string, g2: string)
    requires Prompt(t1, g1) == Prompt(t2, g2)
    ensures t1 == t2
    ensures (g1 == "female") == (g2 == "female")
  {
    var pre := "A nice picture of ";
    var s1 := if g1 == "female" then WomanSuffix else ManSuffix;
    var s2 := if g2 == "female" then WomanSuffix else ManSuffix;
    assert |WomanSuffix| == |ManSuffix|;
    assert |t1| == |t2|;
    var r := Prompt(t1, g1);
    assert r == pre + t1 + s1 && r == pre + t2 + s2;
    assert t1 == r[|pre|..|pre| + |t1|];
    assert t2 == r[|pre|..|pre| + |t2|];
    assert s1 == r[|pre| + |t1|..];
    assert s2 == r[|pre| + |t2|..];
    SuffixesDiffer();
  }

  /** `os.path.join(a, b)` on POSIX. */
  function JoinPath(a: string, b: string): string {
    if |b| > 0 && b[0] == '/' then b
    else if a == [] || a[|a| - 1] == '/' then a + b
    else a + "/" + b
  }

  /** The second part always ends the joined path; an absolute one is the whole result. A relative
      one follows the first part, with one separator between them exactly when the first part is
      non-empty and does not already end in `/`. */
  lemma JoinPathShape(a: string, b: string)
    ensures var r := JoinPath(a, b);
      && |b| <= |r| && r[|r| - |b|..] == b
      && (|b| > 0 && b[0] == '/' ==> r == b)
      && (!(|b| > 0 && b[0] == '/') ==>
            && |a| <= |r| && r[..|a|] == a
            && (|r| == |a| + |b| || |r| == |a| + |b| + 1)
            && (|r| == |a| + |b| + 1 <==> a != [] && a[|a| - 1] != '/')
            && (|r| == |a| + |b| + 1 ==> r[|a|] == '/'))
  {
  }

  /** `f"{os.getenv('ROOT_FOLDER')}/dataset/{taskId}"`. */
  function DatasetFolder(rootFolder: Option<string>, taskId: string): string {
    EnvText(rootFolder) + "/dataset/" + taskId
  }

  /** The config directory: `f"{ROOT_FOLDER}/config"` joined onto the script's own directory. */
  function ConfigDir(scriptDir: string, rootFolder: Option<string>): string {
    JoinPath(scriptDir, EnvText(rootFolder) + "/config")
  }

  function ConfigPath(scriptDir: string, rootFolder: Option<string>, taskId: string): string {
    JoinPath(ConfigDir(scriptDir, rootFolder), taskId + ".yml")
  }

  /** With an absolute ROOT_FOLDER the script directory plays no part: the config file is
      `{ROOT_FOLDER}/config/{taskId}.yml`, next to `{ROOT_FOLDER}/dataset`. */
  lemma ConfigPathAbsolute(scriptDir: string, root: string, taskId: string)
    requires |root| > 0 && root[0] == '/'
    requires !(|taskId| > 0 && taskId[0] == '/')
    ensures ConfigDir(scriptDir, Some(root)) == root + "/config"
    ensures ConfigPath(scriptDir, Some(root), taskId) == root + "/config/" + taskId + ".yml"
  {
    var dir := root + "/config";
    assert dir[0] == '/';
    assert dir[|dir| - 1] == 'g';
    var file := taskId + ".yml";
    assert !(|file| > 0 && file[0] == '/') by {
      if taskId == [] { assert file[0] == '.'; } else { assert file[0] == taskId[0]; }
    }
  }

  /** With ROOT_FOLDER unset, the dataset goes to the relative folder `None/dataset/{taskId}`
      while the config file goes under the script's directory. */
  lemma ConfigPathUnset(scriptDir: string, taskId: string)
    requires |scriptDir| > 0 && scriptDir[|scriptDir| - 1] != '/'
    ensures DatasetFolder(None, taskId) == "None/dataset/" + taskId
    ensures ConfigDir(scriptDir, None) == scriptDir + "/None/config"
  {
  }

  /** `f"{folder}/{index}.{ext}"`. */
  function IndexedPath(folder: string, index: nat, ext: string): string {
    folder + "/" + (NatToString(index) + "." + ext)
  }

  function TextPath(folder: string, index: nat): string {
    IndexedPath(folder, index, "txt")
  }

  function ImagePath(folder: string, index: nat): string {
    IndexedPath(folder, index, "jpeg")
  }

  /** Different indices, or different extensions, give different files in the same folder. */
  lemma IndexedPathInjective(folder: string, i: nat, e1: string, j: nat, e2: string)
    requires IndexedPath(folder, i, e1) == IndexedPath(folder, j, e2)
    ensures i == j && e1 == e2
  {
    var pre := folder + "/";
    var a := NatToString(i) + "." + e1;
    var b := NatToString(j) + "." + e2;
    assert pre + a == pre + b;
    assert a == (pre + a)[|pre|..];
    assert b == (pre + b)[|pre|..];
    assert a == NatToString(i) + ("." + e1);
    assert b == NatToString(j) + ("." + e2);
    DigitsPrefixUnique(NatToString(i), "." + e1, NatToString(j), "." + e2);
    NatToStringInjective(i, j);
    assert e1 == ("." + e1)[1..];
    assert e2 == ("." + e2)[1..];
  }

  // ---------------------------------------------------------------- the dataset

  /** The HTTP answer to a GET of a URL. */
  datatype Response = Response(status: int, body: seq<byte>)

  /** What the web serves: the response to a GET of each URL. */
  type Web = string -> Response

  /** The coroutines `store_dataset` hands to `asyncio.gather`. */
  datatype DatasetJob = Download(url: string, index: nat) | CreateText(index: nat, word: string)

  /** Two jobs per URL, at the URL's position: its download, then its text file. */
  predicate Scheduled(urls: seq<string>, word: string, jobs: seq<DatasetJob>) {
    |jobs| == 2 * |urls| &&
    forall i :: 0 <= i < |urls| ==> jobs[2 * i] == Download(urls[i], i) && jobs[2 * i + 1] == CreateText(i, word)
  }

  /** The file one job writes, if any. */
  function JobWrite(job: DatasetJob, folder: string, web: Web): map<string, File> {
    match job
    case Download(url, i) =>
      if web(url).status == 200 then map[ImagePath(folder, i) := BinaryFile(web(url).body)] else map[]
    case CreateText(i, word) => map[TextPath(folder, i) := TextFile(word)]
  }

  function JobLog(job: DatasetJob, folder: string, web: Web): seq<string> {
    match job
    case Download(url, i) => if web(url).status == 200 then [ImagePath(folder, i)] else []
    case CreateText(i, word) => [TextPath(folder, i)]
  }

  /** The files written by running `jobs` in order, later writes winning. */
  function Written(jobs: seq<DatasetJob>, folder: string, web: Web): map<string, File>
    decreases |jobs|
  {
    if jobs == [] then map[]
    else Written(jobs[..|jobs| - 1], folder, web) + JobWrite(jobs[|jobs| - 1], folder, web)
  }

  function WrittenLog(jobs: seq<DatasetJob>, folder: string, web: Web): seq<string>
    decreases |jobs|
  {
    if jobs == [] then []
    else WrittenLog(jobs[..|jobs| - 1], folder, web) + JobLog(jobs[|jobs| - 1], folder, web)
  }

  /** The text files of the first n URLs. */
  function TextPaths(folder: string, n: nat): set<string> {
    if n == 0 then {} else TextPaths(folder, n - 1) + {TextPath(folder, n - 1)}
  }

  /** The images of the URLs that answered 200. */
  function ImagePaths(folder: string, urls: seq<string>, web: Web): set<string>
    decreases |urls|
  {
    if urls == [] then {}
    else
      var n := |urls| - 1;
      ImagePaths(folder, urls[..n], web) + (if web(urls[n]).status == 200 then {ImagePath(folder, n)} else {})
  }

  /** `download_image`: the image is written only when the server answers 200. */
  method DownloadImage(web: Web, url: string, index: nat, folder: string, fs: FileSystem) returns (path: Option<string>)
    modifies fs
    ensures fs.files == old(fs.files) + JobWrite(Download(url, index), folder, web)
    ensures fs.log == old(fs.log) + JobLog(Download(url, index), folder, web)
    ensures fs.dirs == old(fs.dirs)
    ensures path == if web(url).status == 200 then Some(ImagePath(folder, index)) else None
  {
    var response := web(url);
    if response.status == 200 {
      var imagePath := ImagePath(folder, index);
      fs.WriteFile(imagePath, BinaryFile(response.body));
      path := Some(imagePath);
    } else {
      path := None;
    }
  }

  /** `create_text_file`: `{folder}/{index}.txt` holding exactly `word`. */
  method CreateTextFile(index: nat, word: string, folder: string, fs: FileSystem) returns (path: string)
    modifies fs
    ensures fs.files == old(fs.files)[TextPath(folder, index) := TextFile(word)]
    ensures fs.log == old(fs.log) + [TextPath(folder, index)]
    ensures fs.dirs == old(fs.dirs)
    ensures path == TextPath(folder, index)
  {
    path := TextPath(folder, index);
    fs.WriteFile(path, TextFile(word));
  }

  /** The loop of `store_dataset` that builds the job list: for each URL, by position,
      its download and then its text file. */
  method ScheduleJobs(urls: seq<string>, taskId: string) returns (jobs: seq<DatasetJob>)
    ensures Scheduled(urls, taskId, jobs)
  {
    jobs := [];
    for index := 0 to |urls|
      invariant Scheduled(urls[..index], taskId, jobs)
    {
      jobs := jobs + [Download(urls[index], index)];
      jobs := jobs + [CreateText(index, taskId)];
    }
    assert urls[..|urls|] == urls;
  }

  /** `asyncio.gather` over the jobs, run one after another: the jobs touch distinct files, so
      their interleaving does not matter. */
  method Gather(jobs: seq<DatasetJob>, folder: string, web: Web, fs: FileSystem)
    modifies fs
    ensures fs.files == old(fs.files) + Written(jobs, folder, web)
    ensures fs.log == old(fs.log) + WrittenLog(jobs, folder, web)
    ensures fs.dirs == old(fs.dirs)
  {
    for k := 0 to |jobs|
      invariant fs.files == old(fs.files) + Written(jobs[..k], folder, web)
      invariant fs.log == old(fs.log) + WrittenLog(jobs[..k], folder, web)
      invariant fs.dirs == old(fs.dirs)
    {
      RunJob(jobs[k], folder, web, fs);
      assert jobs[..k + 1][..k] == jobs[..k];
      MapUnionAssoc(old(fs.files), Written(jobs[..k], folder, web), JobWrite(jobs[k], folder, web));
    }
    assert jobs[..|jobs|] == jobs;
  }

  /** One coroutine of the gather. */
  method RunJob(job: DatasetJob, folder: string, web: Web, fs: FileSystem)
    modifies fs
    ensures fs.files == old(fs.files) + JobWrite(job, folder, web)
    ensures fs.log == old(fs.log) + JobLog(job, folder, web)
    ensures fs.dirs == old(fs.dirs)
  {
    match job
    case Download(url, index) =>
      var _ := DownloadImage(web, url, index, folder, fs);
    case CreateText(index, word) =>
      var _ := CreateTextFile(index, word, folder, fs);
  }

  /** `store_dataset`: create the folder, schedule two jobs per URL and wait for all of them. */
  method StoreDataset(urls: seq<string>, taskId: string, folder: string, web: Web, fs: FileSystem)
    modifies fs
    ensures fs.files == old(fs.files) + DatasetWrites(urls, taskId, folder, web)
    ensures fs.log == old(fs.log) + DatasetLog(urls, taskId, folder, web)
    ensures fs.dirs == old(fs.dirs) + {folder}
  {
    fs.MakeDirs(folder);
    var jobs := ScheduleJobs(urls, taskId);
    Gather(jobs, folder, web, fs);
    ScheduledWrites(urls, taskId, jobs, folder, web);
  }

  /** What the dataset of `urls` consists of, URL by URL: the image (when served with 200)
      and the text file. */
  function DatasetWrites(urls: seq<string>, taskId: string, folder: string, web: Web): map<string, File>
    decreases |urls|
  {
    if urls == [] then map[]
    else
      var n := |urls| - 1;
      DatasetWrites(urls[..n], taskId, folder, web)
        + JobWrite(Download(urls[n], n), folder, web)
        + JobWrite(CreateText(n, taskId), folder, web)
  }

  function DatasetLog(urls: seq<string>, taskId: string, folder: string, web: Web): seq<string>
    decreases |urls|
  {
    if urls == [] then []
    else
      var n := |urls| - 1;
      DatasetLog(urls[..n], taskId, folder, web)
        + JobLog(Download(urls[n], n), folder, web)
        + JobLog(CreateText(n, taskId), folder, web)
  }

  /** Running two more jobs adds their files and log entries. */
  lemma WrittenAppendTwo(front: seq<DatasetJob>, a: DatasetJob, b: DatasetJob, folder: string, web: Web)
    ensures Written(front + [a, b], folder, web) == Written(front, folder, web) + JobWrite(a, folder, web) + JobWrite(b, folder, web)
    ensures WrittenLog(front + [a, b], folder, web) == WrittenLog(front, folder, web) + JobLog(a, folder, web) + JobLog(b, folder, web)
  {
    var s := front + [a, b];
    assert s[..|s| - 1] == front + [a];
    assert (front + [a])[..|front|] == front;
  }

  /** The jobs of the first URLs are the first jobs. */
  lemma ScheduledPrefix(urls: seq<string>, word: string, jobs: seq<DatasetJob>, n: nat)
    requires Scheduled(urls, word, jobs) && n <= |urls|
    ensures Scheduled(urls[..n], word, jobs[..2 * n])
  {
    var front := jobs[..2 * n];
    forall i | 0 <= i < n
      ensures front[2 * i] == Download(urls[..n][i], i) && front[2 * i + 1] == CreateText(i, word)
    {
      assert front[2 * i] == jobs[2 * i] && front[2 * i + 1] == jobs[2 * i + 1];
    }
  }

  /** The last two jobs are those of the last URL. */
  lemma ScheduledLast(urls: seq<string>, word: string, jobs: seq<DatasetJob>)
    requires Scheduled(urls, word, jobs) && urls != []
    ensures jobs == jobs[..2 * (|urls| - 1)] + [Download(urls[|urls| - 1], |urls| - 1), CreateText(|urls| - 1, word)]
  {
    var n := |urls| - 1;
    assert jobs[2 * n] == Download(urls[n], n) && jobs[2 * n + 1] == CreateText(n, word);
  }

  /** Running the scheduled jobs writes the dataset of the URLs. */
  lemma {:induction false} ScheduledWrites(urls: seq<string>, taskId: string, jobs: seq<DatasetJob>, folder: string, web: Web)
    requires Scheduled(urls, taskId, jobs)
    ensures Written(jobs, folder, web) == DatasetWrites(urls, taskId, folder, web)
    ensures WrittenLog(jobs, folder, web) == DatasetLog(urls, taskId, folder, web)
    decreases |urls|
  {
    if urls != [] {
      var n := |urls| - 1;
      var front := jobs[..2 * n];
      ScheduledPrefix(urls, taskId, jobs, n);
      ScheduledWrites(urls[..n], taskId, front, folder, web);
      ScheduledLast(urls, taskId, jobs);
      WrittenAppendTwo(front, Download(urls[n], n), CreateText(n, taskId), folder, web);
    }
  }

  lemma IndexedPathLast(folder: string, i: nat, ext: string)
    requires ext != []
    ensures |IndexedPath(folder, i, ext)| > 0
    ensures IndexedPath(folder, i, ext)[|IndexedPath(folder, i, ext)| - 1] == ext[|ext| - 1]
  {
  }

  /** A text file is never an image, and files of different indices are different. */
  lemma PathsDistinct(folder: string, i: nat, j: nat)
    ensures TextPath(folder, i) != ImagePath(folder, j)
    ensures i != j ==> TextPath(folder, i) != TextPath(folder, j) && ImagePath(folder, i) != ImagePath(folder, j)
  {
    if TextPath(folder, i) == ImagePath(folder, j) { IndexedPathInjective(folder, i, "txt", j, "jpeg"); }
    if TextPath(folder, i) == TextPath(folder, j) { IndexedPathInjective(folder, i, "txt", j, "txt"); }
    if ImagePath(folder, i) == ImagePath(folder, j) { IndexedPathInjective(folder, i, "jpeg", j, "jpeg"); }
  }

  lemma {:induction false} TextPathsMember(folder: string, n: nat, j: nat)
    ensures TextPath(folder, j) in TextPaths(folder, n) <==> j < n
    decreases n
  {
    if n > 0 {
      TextPathsMember(folder, n - 1, j);
      PathsDistinct(folder, j, n - 1);
    }
  }

  lemma {:induction false} TextPathsCount(folder: string, n: nat)
    ensures |TextPaths(folder, n)| == n
    decreases n
  {
    if n > 0 {
      TextPathsCount(folder, n - 1);
      TextPathsMember(folder, n - 1, n - 1);
    }
  }

  lemma {:induction false} TextPathsEndInT(folder: string, n: nat)
    ensures forall p :: p in TextPaths(folder, n) ==> |p| > 0 && p[|p| - 1] == 't'
    decreases n
  {
    if n > 0 {
      TextPathsEndInT(folder, n - 1);
      IndexedPathLast(folder, n - 1, "txt");
    }
  }

  lemma {:induction false} ImagePathsShape(folder: string, urls: seq<string>, web: Web)
    ensures forall p :: p in ImagePaths(folder, urls, web) ==> |p| > 0 && p[|p| - 1] == 'g'
    ensures |ImagePaths(folder, urls, web)| <= |urls|
    decreases |urls|
  {
    if urls != [] {
      var n := |urls| - 1;
      ImagePathsShape(folder, urls[..n], web);
      IndexedPathLast(folder, n, "jpeg");
    }
  }

  lemma {:induction false} DatasetKeys(urls: seq<string>, taskId: string, folder: string, web: Web)
    ensures DatasetWrites(urls, taskId, folder, web).Keys == TextPaths(folder, |urls|) + ImagePaths(folder, urls, web)
    decreases |urls|
  {
    if urls != [] {
      DatasetKeys(urls[..|urls| - 1], taskId, folder, web);
    }
  }

  /** The keys a job can write. */
  lemma JobWriteKeys(folder: string, web: Web, url: string, word: string, n: nat)
    ensures JobWrite(Download(url, n), folder, web).Keys <= {ImagePath(folder, n)}
    ensures web(url).status == 200 ==>
      ImagePath(folder, n) in JobWrite(Download(url, n), folder, web) &&
      JobWrite(Download(url, n), folder, web)[ImagePath(folder, n)] == BinaryFile(web(url).body)
    ensures web(url).status != 200 ==> JobWrite(Download(url, n), folder, web) == map[]
    ensures JobWrite(CreateText(n, word), folder, web) == map[TextPath(folder, n) := TextFile(word)]
  {
  }

  lemma {:induction false} DatasetText(urls: seq<string>, taskId: string, folder: string, web: Web, i: nat)
    requires i < |urls|
    ensures TextPath(folder, i) in DatasetWrites(urls, taskId, folder, web)
    ensures DatasetWrites(urls, taskId, folder, web)[TextPath(folder, i)] == TextFile(taskId)
    decreases |urls|
  {
    var n := |urls| - 1;
    var earlier := DatasetWrites(urls[..n], taskId, folder, web);
    var image := JobWrite(Download(urls[n], n), folder, web);
    var text := JobWrite(CreateText(n, taskId), folder, web);
    var k := TextPath(folder, i);
    assert DatasetWrites(urls, taskId, folder, web) == earlier + image + text;
    JobWriteKeys(folder, web, urls[n], taskId, n);
    if i < n {
      DatasetText(urls[..n], taskId, folder, web, i);
      PathsDistinct(folder, i, n);
      MapUnionLeft(earlier, image, k);
      MapUnionLeft(earlier + image, text, k);
    } else {
      MapUnionRight(earlier + image, text, k);
    }
  }

  lemma {:induction false} DatasetImage(urls: seq<string>, taskId: string, folder: string, web: Web, i: nat)
    requires i < |urls|
    ensures ImagePath(folder, i) in DatasetWrites(urls, taskId, folder, web) <==> web(urls[i]).status == 200
    ensures web(urls[i]).status == 200 ==>
      DatasetWrites(urls, taskId, folder, web)[ImagePath(folder, i)] == BinaryFile(web(urls[i]).body)
    decreases |urls|
  {
    var n := |urls| - 1;
    var earlier := DatasetWrites(urls[..n], taskId, folder, web);
    var image := JobWrite(Download(urls[n], n), folder, web);
    var text := JobWrite(CreateText(n, taskId), folder, web);
    var k := ImagePath(folder, i);
    assert DatasetWrites(urls, taskId, folder, web) == earlier + image + text;
    JobWriteKeys(folder, web, urls[n], taskId, n);
    PathsDistinct(folder, n, i);
    MapUnionLeft(earlier + image, text, k);
    if i < n {
      DatasetImage(urls[..n], taskId, folder, web, i);
      PathsDistinct(folder, i, n);
      assert urls[..n][i] == urls[i];
      MapUnionLeft(earlier, image, k);
    } else {
      // the image of the last URL is not among the files of the earlier ones
      DatasetKeys(urls[..n], taskId, folder, web);
      TextPathsEndInT(folder, n);
      IndexedPathLast(folder, n, "jpeg");
      ImagePathsMember(folder, urls[..n], web, n);
      assert k !in earlier;
      if web(urls[n]).status == 200 {
        MapUnionRight(earlier, image, k);
      } else {
        MapUnionLeft(earlier, image, k);
      }
    }
  }

  lemma {:induction false} ImagePathsMember(folder: string, urls: seq<string>, web: Web, j: nat)
    ensures ImagePath(folder, j) in ImagePaths(folder, urls, web) <==> j < |urls| && web(urls[j]).status == 200
    decreases |urls|
  {
    if urls != [] {
      var n := |urls| - 1;
      ImagePathsMember(folder, urls[..n], web, j);
      PathsDistinct(folder, j, n);
      if j < n { assert urls[..n][j] == urls[j]; }
    }
  }

  /** What `store_dataset` leaves in the dataset folder, for N URLs: every `{i}.txt` holds the
      task id; `{i}.jpeg` exists exactly when URL i answered 200, and holds its body; nothing else
      is written. So there are exactly N text files and at most N images. */
  lemma DatasetLayout(urls: seq<string>, taskId: string, folder: string, web: Web)
    ensures DatasetWrites(urls, taskId, folder, web).Keys == TextPaths(folder, |urls|) + ImagePaths(folder, urls, web)
    ensures forall i :: 0 <= i < |urls| ==>
      TextPath(folder, i) in DatasetWrites(urls, taskId, folder, web) &&
      DatasetWrites(urls, taskId, folder, web)[TextPath(folder, i)] == TextFile(taskId)
    ensures forall i :: 0 <= i < |urls| ==>
      (ImagePath(folder, i) in DatasetWrites(urls, taskId, folder, web) <==> web(urls[i]).status == 200)
    ensures forall i :: 0 <= i < |urls| && web(urls[i]).status == 200 ==>
      ImagePath(folder, i) in DatasetWrites(urls, taskId, folder, web) &&
      DatasetWrites(urls, taskId, folder, web)[ImagePath(folder, i)] == BinaryFile(web(urls[i]).body)
    ensures |TextPaths(folder, |urls|)| == |urls| && |ImagePaths(folder, urls, web)| <= |urls|
    ensures TextPaths(folder, |urls|) * ImagePaths(folder, urls, web) == {}
  {
    DatasetKeys(urls, taskId, folder, web);
    TextPathsCount(folder, |urls|);
    TextPathsEndInT(folder, |urls|);
    ImagePathsShape(folder, urls, web);
    forall i | 0 <= i < |urls|
      ensures TextPath(folder, i) in DatasetWrites(urls, taskId, folder, web)
      ensures DatasetWrites(urls, taskId, folder, web)[TextPath(folder, i)] == TextFile(taskId)
      ensures ImagePath(folder, i) in DatasetWrites(urls, taskId, folder, web) <==> web(urls[i]).status == 200
      ensures web(urls[i]).status == 200 ==>
        DatasetWrites(urls, taskId, folder, web)[ImagePath(folder, i)] == BinaryFile(web(urls[i]).body)
    {
      DatasetText(urls, taskId, folder, web, i);
      DatasetImage(urls, taskId, folder, web, i);
    }
    assert forall p :: p in TextPaths(folder, |urls|) ==> p !in ImagePaths(folder, urls, web);
  }

  // ---------------------------------------------------------------- prepare_config

  /** The values `prepare_config` assigns for a task. */
  function FieldsFor(taskId: string, rootFolder: Option<string>, gender: string): Fields {
    Fields(taskId, taskId, Prompt(taskId, gender), DatasetFolder(rootFolder, taskId))
  }

  /** The written config names the task, uses its id as trigger word, samples with the prompt
      for its gender and trains on its dataset folder. */
  lemma ConfigForTask(taskId: string, rootFolder: Option<string>, gender: string)
    ensures var c := Fill(Template, FieldsFor(taskId, rootFolder, gender));
      && Get(c, NamePath) == Some(Str(taskId))
      && Get(c, TriggerWordPath) == Some(Str(taskId))
      && Get(c, PromptsPath) == Some(List([Str(Prompt(taskId, gender))]))
      && Get(c, FolderPathPath) == Some(Str(EnvText(rootFolder) + "/dataset/" + taskId))
  {
    FillWritesFour(FieldsFor(taskId, rootFolder, gender));
  }

  function NotFound(taskId: string): Exc {
    ValueError("Task with ID '" + taskId + "' not found.")
  }

  /** The module's process-wide state: the `config_data` dictionary, assigned into in place
      by every call. `filledFor` records the fields of the last successful call. */
  class ConfigModule {
    var configData: Value
    ghost var filledFor: Option<Fields>

    ghost predicate Valid()
      reads this
    {
      configData == if filledFor.None? then Template else Fill(Template, filledFor.value)
    }

    constructor ()
      ensures Valid() && configData == Template && filledFor == None
    {
      configData := Template;
      filledFor := None;
    }

    /** `prepare_config(taskId)`: look the task up, store its dataset, fill the template and
        write it as `{taskId}.yml` in the config directory. */
    method PrepareConfig(taskId: string, rootFolder: Option<string>, scriptDir: string,
                         db: Database, fs: FileSystem, web: Web) returns (raised: Option<Exc>)
      requires Valid()
      modifies this, fs
      ensures Valid()
      ensures taskId !in db.tasks ==>
        && raised == Some(NotFound(taskId))
        && configData == old(configData) && filledFor == old(filledFor)
        && fs.files == old(fs.files) && fs.log == old(fs.log) && fs.dirs == old(fs.dirs)
      ensures taskId in db.tasks ==>
        var task := db.tasks[taskId];
        var folder := DatasetFolder(rootFolder, taskId);
        var path := ConfigPath(scriptDir, rootFolder, taskId);
        && raised == None
        && filledFor == Some(FieldsFor(taskId, rootFolder, task.metadata.gender))
        && configData == Fill(Template, FieldsFor(taskId, rootFolder, task.metadata.gender))
        && fs.files == (old(fs.files) + DatasetWrites(task.metadata.datasetUrls, taskId, folder, web))[path := YamlFile(configData)]
        && fs.log == old(fs.log) + DatasetLog(task.metadata.datasetUrls, taskId, folder, web) + [path]
        && fs.dirs == old(fs.dirs) + {folder, ConfigDir(scriptDir, rootFolder)}
    {
      if taskId !in db.tasks {
        raised := Some(NotFound(taskId));
        return;
      }
      var task := db.tasks[taskId];
      var datasetFolderPath := DatasetFolder(rootFolder, taskId);
      StoreDataset(task.metadata.datasetUrls, taskId, datasetFolderPath, web, fs);

      var prompt := Prompt(taskId, task.metadata.gender);
      ghost var fields := FieldsFor(taskId, rootFolder, task.metadata.gender);
      ghost var before := configData;
      configData := Set(configData, NamePath, Str(taskId));
      configData := Set(configData, TriggerWordPath, Str(taskId));
      configData := Set(configData, PromptsPath, List([Str(prompt)]));
      configData := Set(configData, FolderPathPath, Str(datasetFolderPath));
      assert configData == Fill(before, fields);
      if filledFor.Some? {
        FillTwice(Template, filledFor.value, fields);
      }
      filledFor := Some(fields);

      var configDir := ConfigDir(scriptDir, rootFolder);
      var configPath := JoinPath(configDir, taskId + ".yml");
      fs.MakeDirs(configDir);
      fs.WriteFile(configPath, YamlFile(configData));
      raised := None;
    }
  }
}
