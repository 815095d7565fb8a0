/**
 * The training script's publish protocol: choose a version tag, derive the
 * artifact and metrics file names from it, stamp the metrics, write both
 * files, optionally upload both to the registry, and turn the outcome into a
 * process exit code. The learning itself and the clock are inputs.
 */
module Training {
  import opened Wrappers
  import opened Text
  import opened Artifacts
  import opened Registry
  import opened ArtifactStore

  const DefaultOutputDir := "./models"
  const Threshold: real := 0.5

  /** What the trainer hands back: the fitted state and its metrics dictionary. */
  datatype Trained = Trained(state: ModelState, metrics: Metrics)

  datatype TrainError = TrainingFailed(reason: string) | StoreFailed(error: StoreError)

  datatype TrainOutcome = TrainOutcome(store: StoreState, result: Result<Metrics, TrainError>)

  // ---------------------------------------------------------------- naming

  /** A `%Y%m%d-%H%M%S` timestamp: eight digits, '-', six digits. */
  predicate StampShape(stamp: string) {
    |stamp| == 15 && AllDigits(stamp[..8]) && stamp[8] == '-' && AllDigits(stamp[9..])
  }

  /** `if not model_version`: a missing or empty tag is replaced by "v" and the timestamp. */
  function VersionTag(given: Option<string>, stamp: string): (tag: string)
    ensures given.Some? && given.value != "" ==> tag == given.value
    ensures given.None? || given.value == "" ==> tag == "v" + stamp
    ensures tag != []
  {
    if given.Some? && given.value != "" then given.value else "v" + stamp
  }

  /** The separator `os.path.join` puts between a directory and a relative name. */
  function JoinHead(dir: string): string {
    if dir == [] || dir[|dir| - 1] == '/' then dir else dir + "/"
  }

  lemma JoinRelative(dir: string, name: string)
    requires name != [] && name[0] != '/'
    ensures Join(dir, name) == JoinHead(dir) + name
  {
  }

  function ModelFileName(tag: string): string { "model-" + tag + ".pkl" }
  function MetricsFileName(tag: string): string { "metrics-" + tag + ".json" }

  /** `os.path.join(output_dir, f"model-{tag}.pkl")`: the name follows the directory and one separator. */
  function ModelFile(outputDir: string, tag: string): (p: string)
    ensures p == JoinHead(outputDir) + "model-" + tag + ".pkl"
    ensures |p| >= 4 && p[|p| - 4..] == ".pkl"
  {
    JoinRelative(outputDir, ModelFileName(tag));
    Join(outputDir, ModelFileName(tag))
  }

  /** `os.path.join(output_dir, f"metrics-{tag}.json")`: the name follows the directory and one separator. */
  function MetricsFile(outputDir: string, tag: string): (p: string)
    ensures p == JoinHead(outputDir) + "metrics-" + tag + ".json"
    ensures |p| >= 5 && p[|p| - 5..] == ".json"
  {
    JoinRelative(outputDir, MetricsFileName(tag));
    Join(outputDir, MetricsFileName(tag))
  }

  /**
   * The two artifacts of one run never share a path, and runs with
   * different tags never share a path: the names determine the tag.
   */
  lemma FileNamesDistinct(outputDir: string, tag: string, other: string)
    ensures ModelFile(outputDir, tag) != MetricsFile(outputDir, other)
    ensures ModelFile(outputDir, tag) == ModelFile(outputDir, other) ==> tag == other
    ensures MetricsFile(outputDir, tag) == MetricsFile(outputDir, other) ==> tag == other
  {
    var h := JoinHead(outputDir);
    JoinRelative(outputDir, ModelFileName(tag));
    JoinRelative(outputDir, MetricsFileName(other));
    JoinRelative(outputDir, ModelFileName(other));
    JoinRelative(outputDir, MetricsFileName(tag));
    assert ModelFile(outputDir, tag)[|h| + 1] == 'o';
    assert MetricsFile(outputDir, other)[|h| + 1] == 'e';
    if ModelFile(outputDir, tag) == ModelFile(outputDir, other) {
      assert tag == ModelFile(outputDir, tag)[|h| + 6..|h| + 6 + |tag|];
      assert |tag| == |other|;
      assert other == ModelFile(outputDir, other)[|h| + 6..|h| + 6 + |other|];
    }
    if MetricsFile(outputDir, tag) == MetricsFile(outputDir, other) {
      assert tag == MetricsFile(outputDir, tag)[|h| + 8..|h| + 8 + |tag|];
      assert |tag| == |other|;
      assert other == MetricsFile(outputDir, other)[|h| + 8..|h| + 8 + |other|];
    }
  }

  /** A head that is empty or ends in '/', followed by a name without '/', has that head as its directory part. */
  lemma DirHeadAppend(h: string, name: string)
    requires h == [] || h[|h| - 1] == '/'
    requires '/' !in name
    ensures DirHead(h + name) == h
  {
    var p := h + name;
    var d := DirHead(p);
    if h != [] {
      assert p[|h| - 1] == '/';
    }
  }

  /**
   * Both artifacts of a run land in the same directory, which is not the
   * working directory when an output directory was named and the tag has
   * no '/'.
   */
  lemma ArtifactsShareDirectory(outputDir: string, tag: string)
    requires '/' !in tag
    ensures Dirname(ModelFile(outputDir, tag)) == Dirname(MetricsFile(outputDir, tag))
    ensures outputDir != "" ==> Dirname(ModelFile(outputDir, tag)) != ""
  {
    var h := JoinHead(outputDir);
    JoinRelative(outputDir, ModelFileName(tag));
    JoinRelative(outputDir, MetricsFileName(tag));
    assert '/' !in ModelFileName(tag) by {
      assert ModelFileName(tag) == "model-" + tag + ".pkl";
    }
    assert '/' !in MetricsFileName(tag) by {
      assert MetricsFileName(tag) == "metrics-" + tag + ".json";
    }
    DirHeadAppend(h, ModelFileName(tag));
    DirHeadAppend(h, MetricsFileName(tag));
  }

  /** `metrics['version'] = tag; metrics['timestamp'] = now.isoformat()`. */
  function InjectMetrics(m: Metrics, tag: string, isoTime: string): (r: Metrics)
    ensures r.Keys == m.Keys + {"version", "timestamp"}
    ensures r["version"] == Label(tag) && r["timestamp"] == Label(isoTime)
    ensures forall k :: k in m && k != "version" && k != "timestamp" ==> r[k] == m[k]
  {
    m["version" := Label(tag)]["timestamp" := Label(isoTime)]
  }

  /**
   * The registry path of the metrics sidecar: every ".pkl" replaced by
   * "-metrics.json". A path without ".pkl" is left as it is, so the metrics
   * upload would then go to the model's own location.
   */
  function MetricsRegistryFor(registryPath: string): (r: string)
    ensures !Occurs(registryPath, ".pkl") ==> r == registryPath
  {
    var r := ReplaceAll(registryPath, ".pkl", "-metrics.json");
    assert !Occurs(registryPath, ".pkl") ==> r == registryPath by {
      if !Occurs(registryPath, ".pkl") {
        ReplaceAbsent(registryPath, ".pkl", "-metrics.json");
      }
    }
    r
  }

  // ---------------------------------------------------------------- the protocol

  /** One store operation of the protocol. */
  datatype Step = CreateDirs(dir: string) | WriteBlob(path: string, blob: Blob) | Publish(src: string, dst: string)

  function StepEffect(st: StoreState, step: Step): Effect {
    match step
    case CreateDirs(d) => MakeDirsEffect(st, d)
    case WriteBlob(p, b) => WriteEffect(st, p, b)
    case Publish(src, dst) => UploadEffect(st, src, dst)
  }

  /** Runs the steps in order; the first one that raises ends the run and its error is the outcome. */
  function Run(st: StoreState, steps: seq<Step>): Effect
    decreases |steps|
  {
    if steps == [] then Effect(Success(()), st)
    else
      var e := StepEffect(st, steps[0]);
      if e.outcome.Failure? then e else Run(e.after, steps[1..])
  }

  /** The location a successful step writes, if it writes one. */
  function StepWrites(step: Step): seq<Write> {
    match step
    case CreateDirs(_) => []
    case WriteBlob(p, _) => [LocalWrite(p)]
    case Publish(_, dst) => if Target(dst).Some? then [Target(dst).value] else []
  }

  function Writes(steps: seq<Step>): seq<Write>
    decreases |steps|
  {
    if steps == [] then [] else StepWrites(steps[0]) + Writes(steps[1..])
  }

  /** A successful run appends exactly the steps' writes to the log, in step order. */
  lemma {:induction false} RunLog(st: StoreState, steps: seq<Step>)
    requires Run(st, steps).outcome.Success?
    ensures Run(st, steps).after.log == st.log + Writes(steps)
    decreases |steps|
  {
    if steps != [] {
      var e := StepEffect(st, steps[0]);
      assert e.after.log == st.log + StepWrites(steps[0]);
      RunLog(e.after, steps[1..]);
    }
  }

  predicate NoPublish(steps: seq<Step>) {
    forall i :: 0 <= i < |steps| ==> !steps[i].Publish?
  }

  /** A run without uploads never touches a bucket. */
  lemma {:induction false} RunWithoutPublish(st: StoreState, steps: seq<Step>)
    requires NoPublish(steps)
    ensures Run(st, steps).after.s3 == st.s3 && Run(st, steps).after.gcs == st.gcs
    decreases |steps|
  {
    if steps != [] {
      var e := StepEffect(st, steps[0]);
      assert NoPublish(steps[1..]) by {
        forall i | 0 <= i < |steps[1..]| ensures !steps[1..][i].Publish? {
          assert steps[1..][i] == steps[i + 1];
        }
      }
      if e.outcome.Success? {
        RunWithoutPublish(e.after, steps[1..]);
      }
    }
  }

  /**
   * What `train_model` does to the store, in order: create the output
   * directory, create the model file's directory (`MLModel.save` does so),
   * write the model bundle tagged with the version, write the stamped
   * metrics, and only with `upload` resolve the registry path and upload the
   * model and then the metrics.
   */
  function PublishPlan(outputDir: string, tag: string, state: ModelState, metrics: Metrics, upload: bool, env: Env)
    : (plan: seq<Step>)
    ensures |plan| == if upload then 6 else 4
    ensures NoPublish(plan) <==> !upload
  {
    var plan := SavePlan(outputDir, tag, state, metrics) +
      (if upload then UploadPlan(ModelFile(outputDir, tag), MetricsFile(outputDir, tag), RegistryPath(tag, env)) else []);
    assert upload ==> plan[4].Publish?;
    plan
  }

  /** The local half of the protocol: directories, then the model file, then the metrics file. */
  function SavePlan(outputDir: string, tag: string, state: ModelState, metrics: Metrics): (plan: seq<Step>)
    ensures |plan| == 4 && NoPublish(plan)
    ensures Writes(plan) == [LocalWrite(ModelFile(outputDir, tag)), LocalWrite(MetricsFile(outputDir, tag))]
  {
    var modelPath := ModelFile(outputDir, tag);
    var plan := [CreateDirs(outputDir), CreateDirs(Dirname(modelPath)),
                 WriteBlob(modelPath, Save(Artifact(state, tag))), WriteBlob(MetricsFile(outputDir, tag), MetricsBlob(metrics))];
    assert plan + [] == plan;
    WritesOfWrites(plan, []);
    plan
  }

  /** The registry half: the model to the resolved path, then the metrics next to it. */
  function UploadPlan(modelPath: string, metricsPath: string, registryPath: string): (plan: seq<Step>)
    ensures |plan| == 2 && !NoPublish(plan)
    ensures Target(registryPath).Some? && Target(MetricsRegistryFor(registryPath)).Some? ==>
              Writes(plan) == [Target(registryPath).value, Target(MetricsRegistryFor(registryPath)).value]
  {
    var plan := [Publish(modelPath, registryPath), Publish(metricsPath, MetricsRegistryFor(registryPath))];
    assert plan[0].Publish?;
    WritesOfPublishes(modelPath, registryPath, metricsPath, MetricsRegistryFor(registryPath));
    plan
  }

  /**
   * `train_model(...)`: the store it leaves and the metrics it returns, or
   * the exception it raises. A trainer that raises leaves the store alone;
   * the returned metrics are the trainer's, stamped with the tag and the
   * time; without `upload` no bucket changes, whatever else fails.
   */
  function TrainSpec(st: StoreState, outputDir: string, given: Option<string>, upload: bool,
                     training: Result<Trained, string>, stamp: string, isoTime: string, env: Env): (o: TrainOutcome)
    ensures training.Failure? ==> o.store == st && o.result == Failure(TrainingFailed(training.error))
    ensures training.Success? && o.result.Failure? ==> o.result.error.StoreFailed?
    ensures o.result.Success? ==>
              training.Success? && o.result.value == InjectMetrics(training.value.metrics, VersionTag(given, stamp), isoTime)
    ensures !upload ==> o.store.s3 == st.s3 && o.store.gcs == st.gcs
  {
    match training
    case Failure(reason) => TrainOutcome(st, Failure(TrainingFailed(reason)))
    case Success(t) =>
      var tag := VersionTag(given, stamp);
      var metrics := InjectMetrics(t.metrics, tag, isoTime);
      var plan := PublishPlan(outputDir, tag, t.state, metrics, upload, env);
      var e := Run(st, plan);
      var o := TrainOutcome(e.after, if e.outcome.Failure? then Failure(StoreFailed(e.outcome.error)) else Success(metrics));
      if upload then o else RunWithoutPublish(st, plan); o
  }

  // ---------------------------------------------------------------- properties

  /**
   * A successful run wrote the model file, then the metrics file, then
   * (with `upload`) the model's registry location, then the metrics'
   * registry location, and nothing else; without `upload` no bucket changed.
   */
  lemma PublishOrder(st: StoreState, outputDir: string, given: Option<string>, upload: bool,
                     t: Trained, stamp: string, isoTime: string, env: Env)
    requires TrainSpec(st, outputDir, given, upload, Success(t), stamp, isoTime, env).result.Success?
    ensures upload ==>
              var registryPath := RegistryPath(VersionTag(given, stamp), env);
              Target(registryPath).Some? && Target(MetricsRegistryFor(registryPath)).Some?
    ensures var tag := VersionTag(given, stamp);
            var o := TrainSpec(st, outputDir, given, upload, Success(t), stamp, isoTime, env);
            var registryPath := RegistryPath(tag, env);
            o.store.log == st.log + [LocalWrite(ModelFile(outputDir, tag)), LocalWrite(MetricsFile(outputDir, tag))] +
              (if upload then [Target(registryPath).value, Target(MetricsRegistryFor(registryPath)).value] else [])
    ensures !upload ==>
              TrainSpec(st, outputDir, given, upload, Success(t), stamp, isoTime, env).store.s3 == st.s3 &&
              TrainSpec(st, outputDir, given, upload, Success(t), stamp, isoTime, env).store.gcs == st.gcs
  {
    var tag := VersionTag(given, stamp);
    var metrics := InjectMetrics(t.metrics, tag, isoTime);
    var plan := PublishPlan(outputDir, tag, t.state, metrics, upload, env);
    assert TrainSpec(st, outputDir, given, upload, Success(t), stamp, isoTime, env).store == Run(st, plan).after;
    RunLog(st, plan);
    if upload {
      UploadedTargets(st, plan);
      var registryPath := RegistryPath(tag, env);
      assert plan[4] == Publish(ModelFile(outputDir, tag), registryPath);
      assert plan[5] == Publish(MetricsFile(outputDir, tag), MetricsRegistryFor(registryPath));
    }
    PlanWrites(outputDir, tag, t.state, metrics, upload, env);
  }

  /** The locations the plan writes, in order, when every upload resolves its target. */
  lemma PlanWrites(outputDir: string, tag: string, state: ModelState, metrics: Metrics, upload: bool, env: Env)
    requires upload ==>
               Target(RegistryPath(tag, env)).Some? && Target(MetricsRegistryFor(RegistryPath(tag, env))).Some?
    ensures Writes(PublishPlan(outputDir, tag, state, metrics, upload, env)) ==
              [LocalWrite(ModelFile(outputDir, tag)), LocalWrite(MetricsFile(outputDir, tag))] +
              (if upload then [Target(RegistryPath(tag, env)).value,
                               Target(MetricsRegistryFor(RegistryPath(tag, env))).value] else [])
  {
    var modelPath, metricsPath := ModelFile(outputDir, tag), MetricsFile(outputDir, tag);
    var head := [CreateDirs(outputDir), CreateDirs(Dirname(modelPath)),
                 WriteBlob(modelPath, Save(Artifact(state, tag))), WriteBlob(metricsPath, MetricsBlob(metrics))];
    if upload {
      var registryPath := RegistryPath(tag, env);
      var tail := [Publish(modelPath, registryPath), Publish(metricsPath, MetricsRegistryFor(registryPath))];
      WritesOfWrites(head, tail);
      WritesOfPublishes(modelPath, registryPath, metricsPath, MetricsRegistryFor(registryPath));
    } else {
      WritesOfWrites(head, []);
    }
  }

  lemma WritesOfWrites(head: seq<Step>, tail: seq<Step>)
    requires |head| == 4 && head[0].CreateDirs? && head[1].CreateDirs? && head[2].WriteBlob? && head[3].WriteBlob?
    ensures Writes(head + tail) == [LocalWrite(head[2].path), LocalWrite(head[3].path)] + Writes(tail)
  {
    WritesConcat(head, tail);
    assert Writes(head[3..]) == [LocalWrite(head[3].path)] by {
      assert head[3..][1..] == [];
    }
    assert Writes(head[2..]) == [LocalWrite(head[2].path), LocalWrite(head[3].path)] by {
      assert head[2..][1..] == head[3..];
    }
    assert Writes(head[1..]) == Writes(head[2..]) by {
      assert head[1..][1..] == head[2..];
    }
  }

  lemma WritesOfPublishes(src: string, dst: string, src': string, dst': string)
    ensures Target(dst).Some? && Target(dst').Some? ==>
              Writes([Publish(src, dst), Publish(src', dst')]) == [Target(dst).value, Target(dst').value]
  {
    var steps := [Publish(src, dst), Publish(src', dst')];
    assert steps[1..][1..] == [];
    assert Writes(steps[1..]) == StepWrites(steps[1]);
  }

  lemma {:induction false} WritesConcat(a: seq<Step>, b: seq<Step>)
    ensures Writes(a + b) == Writes(a) + Writes(b)
    decreases |a|
  {
    if a != [] {
      assert (a + b)[1..] == a[1..] + b;
      WritesConcat(a[1..], b);
    } else {
      assert a + b == b;
    }
  }

  /** In a successful run every upload resolved its target. */
  lemma {:induction false} UploadedTargets(st: StoreState, steps: seq<Step>)
    requires Run(st, steps).outcome.Success?
    ensures forall i :: 0 <= i < |steps| && steps[i].Publish? ==> Target(steps[i].dst).Some?
    decreases |steps|
  {
    if steps != [] {
      var e := StepEffect(st, steps[0]);
      UploadedTargets(e.after, steps[1..]);
      forall i | 0 < i < |steps| && steps[i].Publish? ensures Target(steps[i].dst).Some? {
        assert steps[1..][i - 1] == steps[i];
      }
    }
  }

  /** One step of a run: a failing first step is the outcome, a succeeding one hands on its store. */
  lemma RunStep(st: StoreState, steps: seq<Step>)
    requires steps != []
    ensures StepEffect(st, steps[0]).outcome.Failure? ==> Run(st, steps) == StepEffect(st, steps[0])
    ensures StepEffect(st, steps[0]).outcome.Success? ==>
              Run(st, steps) == Run(StepEffect(st, steps[0]).after, steps[1..])
  {
  }

  /**
   * Without `upload`, a run with a named output directory and a tag without
   * '/' always succeeds: it returns the stamped metrics, the model file
   * holds the bundle tagged with the version, the metrics file holds the
   * stamped metrics, and no bucket changes.
   */
  lemma LocalPublishSucceeds(st: StoreState, outputDir: string, given: Option<string>,
                             t: Trained, stamp: string, isoTime: string, env: Env)
    requires outputDir != "" && '/' !in VersionTag(given, stamp)
    ensures var tag := VersionTag(given, stamp);
            var metrics := InjectMetrics(t.metrics, tag, isoTime);
            var o := TrainSpec(st, outputDir, given, false, Success(t), stamp, isoTime, env);
            o.result == Success(metrics) &&
            o.store.files == st.files[ModelFile(outputDir, tag) := Save(Artifact(t.state, tag))]
                                     [MetricsFile(outputDir, tag) := MetricsBlob(metrics)] &&
            o.store.s3 == st.s3 && o.store.gcs == st.gcs
  {
    var tag := VersionTag(given, stamp);
    var metrics := InjectMetrics(t.metrics, tag, isoTime);
    var save := SavePlan(outputDir, tag, t.state, metrics);
    assert PublishPlan(outputDir, tag, t.state, metrics, false, env) == save;
    SavePlanRuns(st, outputDir, tag, t.state, metrics);
  }

  /** The local half always succeeds for a named output directory and a tag without '/', writing exactly its two files. */
  lemma SavePlanRuns(st: StoreState, outputDir: string, tag: string, state: ModelState, metrics: Metrics)
    requires outputDir != "" && '/' !in tag
    ensures var e := Run(st, SavePlan(outputDir, tag, state, metrics));
            e.outcome.Success? &&
            e.after.files == st.files[ModelFile(outputDir, tag) := Save(Artifact(state, tag))]
                                     [MetricsFile(outputDir, tag) := MetricsBlob(metrics)]
  {
    var modelPath, metricsPath := ModelFile(outputDir, tag), MetricsFile(outputDir, tag);
    var plan := SavePlan(outputDir, tag, state, metrics);
    ArtifactsShareDirectory(outputDir, tag);
    var e1 := MakeDirsEffect(st, outputDir);
    RunStep(st, plan);
    var e2 := MakeDirsEffect(e1.after, Dirname(modelPath));
    RunStep(e1.after, plan[1..]);
    var e3 := WriteEffect(e2.after, modelPath, Save(Artifact(state, tag)));
    assert plan[1..][1..][0] == WriteBlob(modelPath, Save(Artifact(state, tag)));
    RunStep(e2.after, plan[1..][1..]);
    assert plan[1..][1..][1..][0] == WriteBlob(metricsPath, MetricsBlob(metrics));
    RunStep(e3.after, plan[1..][1..][1..]);
    assert plan[1..][1..][1..][1..] == [];
  }

  /** After a successful local half, the model file holds the tagged bundle and the metrics file the metrics. */
  lemma SavedContents(st: StoreState, outputDir: string, tag: string, state: ModelState, metrics: Metrics)
    requires Run(st, SavePlan(outputDir, tag, state, metrics)).outcome.Success?
    ensures var after := Run(st, SavePlan(outputDir, tag, state, metrics)).after;
            ModelFile(outputDir, tag) in after.files && after.files[ModelFile(outputDir, tag)] == Save(Artifact(state, tag)) &&
            MetricsFile(outputDir, tag) in after.files && after.files[MetricsFile(outputDir, tag)] == MetricsBlob(metrics)
  {
    var plan := SavePlan(outputDir, tag, state, metrics);
    var modelPath, metricsPath := ModelFile(outputDir, tag), MetricsFile(outputDir, tag);
    FileNamesDistinct(outputDir, tag, tag);
    var e1 := MakeDirsEffect(st, outputDir);
    RunStep(st, plan);
    var e2 := MakeDirsEffect(e1.after, Dirname(modelPath));
    RunStep(e1.after, plan[1..]);
    var e3 := WriteEffect(e2.after, modelPath, Save(Artifact(state, tag)));
    assert plan[1..][1..][0] == WriteBlob(modelPath, Save(Artifact(state, tag)));
    RunStep(e2.after, plan[1..][1..]);
    assert plan[1..][1..][1..][0] == WriteBlob(metricsPath, MetricsBlob(metrics));
    RunStep(e3.after, plan[1..][1..][1..]);
    assert plan[1..][1..][1..][1..] == [];
  }

  /** The version a run with a missing or empty tag chooses is safe for every path built from it. */
  lemma AutoTagSafe(given: Option<string>, stamp: string)
    requires given.None? || given.value == ""
    requires StampShape(stamp)
    ensures var tag := VersionTag(given, stamp);
            tag[0] == 'v' && '/' !in tag && !Occurs(tag, ".pkl") &&
            !Occurs(RemoteKey(tag), S3Scheme) && !Occurs(RemoteKey(tag), GcsScheme)
  {
    var tag := VersionTag(given, stamp);
    assert forall i :: 0 <= i < |tag| ==> tag[i] == 'v' || tag[i] == '-' || '0' <= tag[i] <= '9' by {
      forall i | 0 <= i < |tag| ensures tag[i] == 'v' || tag[i] == '-' || '0' <= tag[i] <= '9' {
        if 1 <= i <= 8 {
          assert tag[i] == stamp[..8][i - 1];
        } else if i >= 10 {
          assert tag[i] == stamp[9..][i - 10];
        }
      }
    }
    NoCharNoOccur(tag, ".pkl", 0);
    var key := RemoteKey(tag);
    assert ':' !in key by {
      assert key == "models/" + tag + "/model.pkl";
    }
    NoCharNoOccur(key, S3Scheme, 2);
    NoCharNoOccur(key, GcsScheme, 2);
  }

  // ---------------------------------------------------------------- exit code

  /** The score gate: `test_score` is present, numeric and at least 0.5. */
  predicate PassesGate(m: Metrics) {
    "test_score" in m && m["test_score"].Number? && m["test_score"].value >= Threshold
  }

  /**
   * The exit status of the training command: 1 when training or publishing
   * raised, 1 when `metrics.get('test_score', 0) < 0.5` (a missing score
   * reads 0; a non-numeric one makes the comparison raise, which is caught),
   * and 0 otherwise.
   */
  function ExitCode(result: Result<Metrics, TrainError>): (code: int)
    ensures code == 0 || code == 1
    ensures code == 0 <==> result.Success? && PassesGate(result.value)
  {
    match result
    case Failure(_) => 1
    case Success(m) =>
      match (if "test_score" in m then m["test_score"] else Number(0.0))
      case Label(_) => 1
      case Number(score) => if score < Threshold then 1 else 0
  }

  /** Stamping the metrics never changes the gate: it is decided by the trainer's own `test_score`. */
  lemma ExitCodeFollowsTrainer(st: StoreState, outputDir: string, given: Option<string>, upload: bool,
                               training: Result<Trained, string>, stamp: string, isoTime: string, env: Env)
    ensures var o := TrainSpec(st, outputDir, given, upload, training, stamp, isoTime, env);
            ExitCode(o.result) == 0 <==> o.result.Success? && training.Success? && PassesGate(training.value.metrics)
  {
    if training.Success? {
      var tag := VersionTag(given, stamp);
      var m := InjectMetrics(training.value.metrics, tag, isoTime);
      assert "test_score" in m <==> "test_score" in training.value.metrics;
      if "test_score" in training.value.metrics {
        assert m["test_score"] == training.value.metrics["test_score"];
      }
    }
  }

  // ---------------------------------------------------------------- the script

  /** `train_model` against the store, step by step in the script's order. */
  method TrainModel(store: Store, outputDir: string, given: Option<string>, upload: bool,
                    training: Result<Trained, string>, stamp: string, isoTime: string, env: Env)
    returns (r: Result<Metrics, TrainError>)
    modifies store
    ensures TrainOutcome(store.State(), r) ==
            TrainSpec(old(store.State()), outputDir, given, upload, training, stamp, isoTime, env)
  {
    if training.Failure? {
      return Failure(TrainingFailed(training.error));
    }
    var trained := training.value;
    var tag := VersionTag(given, stamp);
    var metrics := InjectMetrics(trained.metrics, tag, isoTime);
    ghost var st0 := store.State();
    RunConcat(st0, SavePlan(outputDir, tag, trained.state, metrics),
              if upload then UploadPlan(ModelFile(outputDir, tag), MetricsFile(outputDir, tag), RegistryPath(tag, env)) else []);
    var saved := SaveArtifacts(store, outputDir, tag, trained.state, metrics);
    if saved.Failure? {
      return Failure(StoreFailed(saved.error));
    }
    if upload {
      var registryPath := RegistryPath(tag, env);
      var uploaded := UploadArtifacts(store, ModelFile(outputDir, tag), MetricsFile(outputDir, tag), registryPath);
      if uploaded.Failure? {
        return Failure(StoreFailed(uploaded.error));
      }
    }
    r := Success(metrics);
  }

  /** Running two plans back to back is running their concatenation. */
  lemma {:induction false} RunConcat(st: StoreState, a: seq<Step>, b: seq<Step>)
    ensures Run(st, a + b) == if Run(st, a).outcome.Failure? then Run(st, a) else Run(Run(st, a).after, b)
    decreases |a|
  {
    if a == [] {
      assert a + b == b;
    } else {
      assert (a + b)[1..] == a[1..] + b;
      RunConcat(StepEffect(st, a[0]).after, a[1..], b);
    }
  }

  /** The registry half runs the model upload and, only if that succeeds, the metrics upload. */
  lemma RunUploadPlan(st: StoreState, modelPath: string, metricsPath: string, registryPath: string)
    ensures var first := UploadEffect(st, modelPath, registryPath);
            Run(st, UploadPlan(modelPath, metricsPath, registryPath)) ==
              if first.outcome.Failure? then first
              else UploadEffect(first.after, metricsPath, MetricsRegistryFor(registryPath))
  {
    var plan := UploadPlan(modelPath, metricsPath, registryPath);
    var first := UploadEffect(st, modelPath, registryPath);
    RunStep(st, plan);
    assert plan[1..] == [Publish(metricsPath, MetricsRegistryFor(registryPath))];
    RunStep(first.after, plan[1..]);
    assert plan[1..][1..] == [];
  }

  /** Save the model (creating its directory as `MLModel.save` does) and write the stamped metrics. */
  method SaveArtifacts(store: Store, outputDir: string, tag: string, state: ModelState, metrics: Metrics)
    returns (r: Result<(), StoreError>)
    modifies store
    ensures Effect(r, store.State()) == Run(old(store.State()), SavePlan(outputDir, tag, state, metrics))
  {
    ghost var plan := SavePlan(outputDir, tag, state, metrics);
    ghost var st0 := store.State();
    var made := store.MakeDirs(outputDir);
    RunStep(st0, plan);
    if made.Failure? {
      return made;
    }
    var modelPath := ModelFile(outputDir, tag);
    ghost var st1 := store.State();
    made := store.MakeDirs(Dirname(modelPath));
    RunStep(st1, plan[1..]);
    if made.Failure? {
      return made;
    }
    ghost var st2 := store.State();
    var written := store.WriteFile(modelPath, Save(Artifact(state, tag)));
    assert plan[1..][1..][0] == WriteBlob(modelPath, Save(Artifact(state, tag)));
    RunStep(st2, plan[1..][1..]);
    if written.Failure? {
      return written;
    }
    ghost var st3 := store.State();
    r := store.WriteFile(MetricsFile(outputDir, tag), MetricsBlob(metrics));
    assert plan[1..][1..][1..][0] == WriteBlob(MetricsFile(outputDir, tag), MetricsBlob(metrics));
    RunStep(st3, plan[1..][1..][1..]);
    assert plan[1..][1..][1..][1..] == [];
  }

  /** Upload the model to the registry path, then the metrics to the sidecar path. */
  method UploadArtifacts(store: Store, modelPath: string, metricsPath: string, registryPath: string)
    returns (r: Result<(), StoreError>)
    modifies store
    ensures Effect(r, store.State()) == Run(old(store.State()), UploadPlan(modelPath, metricsPath, registryPath))
  {
    ghost var st0 := store.State();
    RunUploadPlan(st0, modelPath, metricsPath, registryPath);
    r := store.Upload(modelPath, registryPath);
    if r.Failure? {
      return;
    }
    r := store.Upload(metricsPath, MetricsRegistryFor(registryPath));
  }

  /**
   * The training command: the output directory is the `--output-dir` flag
   * or else `MODEL_OUTPUT_DIR` or "./models"; the tag and `--upload` come
   * from the flags; the exit status follows the score gate.
   */
  method TrainCommand(store: Store, outputDirFlag: Option<string>, versionFlag: Option<string>, upload: bool,
                      training: Result<Trained, string>, stamp: string, isoTime: string, env: Env)
    returns (code: int)
    modifies store
    ensures var outputDir := if outputDirFlag.Some? then outputDirFlag.value
                             else Getenv(env, "MODEL_OUTPUT_DIR", DefaultOutputDir);
            var o := TrainSpec(old(store.State()), outputDir, versionFlag, upload, training, stamp, isoTime, env);
            store.State() == o.store && code == ExitCode(o.result)
  {
    var outputDir := if outputDirFlag.Some? then outputDirFlag.value
                     else Getenv(env, "MODEL_OUTPUT_DIR", DefaultOutputDir);
    var r := TrainModel(store, outputDir, versionFlag, upload, training, stamp, isoTime, env);
    code := ExitCode(r);
  }
}
