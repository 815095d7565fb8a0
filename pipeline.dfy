/**
 * Training and serving together: what the training script publishes to the
 * registry is what the serving process loads when it is started with the
 * same version and the same registry settings.
 */
module Pipeline {
  import opened Wrappers
  import opened Text
  import opened Artifacts
  import opened Registry
  import opened ArtifactStore
  import opened Serving
  import opened Training

  /**
   * The two registry locations one publishing run writes are different, so
   * the metrics upload never overwrites the model it follows.
   */
  lemma RegistryLocationsDistinct(tag: string, env: Env)
    requires !Occurs(tag, ".pkl")
    requires RegistryType(env) == "s3" ==> !Occurs(S3Bucket(env), ".pkl")
    requires RegistryType(env) == "gcs" ==> !Occurs(GcsBucket(env), ".pkl")
    requires RegistryType(env) !in {"s3", "gcs"} ==> !Occurs(BasePath(env), ".pkl")
    requires Target(RegistryPath(tag, env)).Some?
    requires Target(MetricsRegistryFor(RegistryPath(tag, env))).Some?
    ensures Target(RegistryPath(tag, env)) != Target(MetricsRegistryFor(RegistryPath(tag, env)))
  {
    MetricsRegistryPath(tag, env);
    SidecarDistinct(RegistryDir(tag, env), "/model.pkl", "/model-metrics.json");
  }

  /**
   * The registry directory followed by the model's and the sidecar's file
   * names gives two different locations. The two names are parameters fixed
   * by the `requires`, not inline literals, so that `Target` (which runs
   * `str.replace` over the path) is not unfolded over them at every use.
   */
  lemma SidecarDistinct(dir: string, model: string, sidecar: string)
    requires model == "/model.pkl" && sidecar == "/model-metrics.json"
    requires Target(dir + model).Some? && Target(dir + sidecar).Some?
    ensures Target(dir + model) != Target(dir + sidecar)
  {
    var p, q := dir + model, dir + sidecar;
    assert p[|p| - 1] == 'l' && q[|q| - 1] == 'n';
    DistinctTargets(p, q);
  }

  /**
   * After a successful run with `upload`, the model's registry location
   * holds the bundle saved under the run's version, the metrics sidecar's
   * location holds the stamped metrics, and a remote backend that took the
   * upload is reachable.
   */
  lemma PublishedToRegistry(st: StoreState, outputDir: string, given: Option<string>, t: Trained,
                            stamp: string, isoTime: string, env: Env)
    requires TrainSpec(st, outputDir, given, true, Success(t), stamp, isoTime, env).result.Success?
    requires !Occurs(VersionTag(given, stamp), ".pkl")
    requires RegistryType(env) == "s3" ==> !Occurs(S3Bucket(env), ".pkl")
    requires RegistryType(env) == "gcs" ==> !Occurs(GcsBucket(env), ".pkl")
    requires RegistryType(env) !in {"s3", "gcs"} ==> !Occurs(BasePath(env), ".pkl")
    ensures var published := TrainSpec(st, outputDir, given, true, Success(t), stamp, isoTime, env).store;
            var registryPath := RegistryPath(VersionTag(given, stamp), env);
            Target(registryPath).Some? &&
            Lookup(published, Target(registryPath).value) == Some(Save(Artifact(t.state, VersionTag(given, stamp)))) &&
            (BackendOf(registryPath) != Local ==> Online(published, BackendOf(registryPath)))
    ensures var published := TrainSpec(st, outputDir, given, true, Success(t), stamp, isoTime, env).store;
            var tag := VersionTag(given, stamp);
            var metricsRegistry := MetricsRegistryFor(RegistryPath(tag, env));
            Target(metricsRegistry).Some? &&
            Lookup(published, Target(metricsRegistry).value) == Some(MetricsBlob(InjectMetrics(t.metrics, tag, isoTime)))
  {
    var tag := VersionTag(given, stamp);
    var metrics := InjectMetrics(t.metrics, tag, isoTime);
    var modelPath, metricsPath := ModelFile(outputDir, tag), MetricsFile(outputDir, tag);
    var registryPath := RegistryPath(tag, env);
    var metricsRegistry := MetricsRegistryFor(registryPath);
    var save := SavePlan(outputDir, tag, t.state, metrics);
    var upload := UploadPlan(modelPath, metricsPath, registryPath);
    RunConcat(st, save, upload);
    var saved := Run(st, save);
    SavedContents(st, outputDir, tag, t.state, metrics);
    // The model upload leaves the metrics file alone: a local registry path
    // ends in ".pkl", the metrics file in ".json".
    assert Target(registryPath) != Some(LocalWrite(metricsPath)) by {
      if BackendOf(registryPath) == Local {
        assert registryPath[|registryPath| - 1] == 'l' && metricsPath[|metricsPath| - 1] == 'n';
      }
    }
    RegistryLocationsDistinct(tag, env);
    RunUploadPlan(saved.after, modelPath, metricsPath, registryPath);
    UploadsToDistinctTargets(saved.after, modelPath, registryPath, metricsPath, metricsRegistry);
  }

  /**
   * The store a serving process sees holds the same files, directories and
   * bucket objects as the store the training run left behind; only whether
   * each bucket can be reached (and the log of past writes) may differ.
   */
  predicate SameContents(serving: StoreState, published: StoreState) {
    serving.files == published.files && serving.dirs == published.dirs &&
    serving.s3 == published.s3 && serving.gcs == published.gcs
  }

  /**
   * Publish, then serve: after a successful training run with `upload`, a
   * server started with the run's version and the same registry settings,
   * on a store with the same contents, loads exactly the trained state,
   * labelled with that version, on every backend, provided the serving
   * process can reach a remote registry and can create its model path.
   */
  lemma PublishedModelServes(st: StoreState, outputDir: string, given: Option<string>, t: Trained,
                             stamp: string, isoTime: string, env: Env, s: ServerState, serving: StoreState)
    requires TrainSpec(st, outputDir, given, true, Success(t), stamp, isoTime, env).result.Success?
    requires !Occurs(VersionTag(given, stamp), ".pkl")
    requires RegistryType(env) == "s3" ==> !Occurs(S3Bucket(env), ".pkl")
    requires RegistryType(env) == "gcs" ==> !Occurs(GcsBucket(env), ".pkl")
    requires RegistryType(env) !in {"s3", "gcs"} ==> !Occurs(BasePath(env), ".pkl")
    requires SameContents(serving, TrainSpec(st, outputDir, given, true, Success(t), stamp, isoTime, env).store)
    requires BackendOf(RegistryPath(VersionTag(given, stamp), env)) != Local ==>
               Online(serving, BackendOf(RegistryPath(VersionTag(given, stamp), env)))
    requires CanCreate(serving, ModelPath(env))
    ensures var loaded := LoadSpec(s, serving, Some(VersionTag(given, stamp)), env);
            loaded.result.Success? &&
            loaded.server.model == Some(Artifact(t.state, VersionTag(given, stamp))) &&
            loaded.server.modelVersion == VersionTag(given, stamp)
  {
    var published := TrainSpec(st, outputDir, given, true, Success(t), stamp, isoTime, env).store;
    var tag := VersionTag(given, stamp);
    var a := Artifact(t.state, tag);
    PublishedToRegistry(st, outputDir, given, t, stamp, isoTime, env);
    var w := Target(RegistryPath(tag, env)).value;
    assert Lookup(published, w) == Some(Save(a));
    assert Lookup(serving, w) == Some(Save(a));
    RegistryModelLoads(s, serving, tag, env, a);
  }
}
