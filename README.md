# Verified model of the MLOps pipeline core

This project models, in Dafny, the three pieces of logic in the
`end-to-end-mlops-k8s` repository that carry real behaviour:

- **The model registry and artifact store** (`src/utils.py`).
  - `get_model_registry_path` resolves a version to a path from the
    `MODEL_REGISTRY_TYPE`, `MODEL_REGISTRY_PATH`, `S3_BUCKET` and
    `GCS_BUCKET` settings.
  - `upload_to_registry` and `download_from_registry` pick a backend by URI
    prefix. For a remote path they strip the scheme with `str.replace` and
    split the rest into bucket and key.
  - The local backend creates directories and copies files.
- **The serving process** (`src/serve.py`).
  - It holds a model slot that starts empty and a version label that starts
    as `"unknown"`. Only `load_model` writes them.
  - It keeps two Prometheus counters: requests by model version, and
    predictions by version and class.
  - The `/health`, `/ready`, `/predict` and `/` endpoints read or update
    that state.
- **The training script's publish protocol** (`src/train.py`).
  - It chooses a version tag and derives the file names from it.
  - It stamps the metrics and writes the model and the metrics.
  - With `upload` it sends both to the registry.
  - The result becomes an exit status through the 0.5 score gate.

## How the model is built

- **Files and modules.**
  - `wrappers.dfy`: `Option` and `Result`.
  - `text.dfy`: the Python string and path operations the code uses.
    - `str.startswith`, `in`, `str.replace` (all occurrences, left to right)
      and `str.split('/', 1)` with its unpacking failure.
    - POSIX `os.path.dirname` and `os.path.join`, and `str(int)`.
  - `artifacts.dfy`: the model artifact (an opaque fitted state plus a
    version) and what a file or object holds. It also has `MLModel.save` and
    `MLModel.load` (`src/model.py`, context only).
  - `registry.dfy`, `store.dfy`, `serving.dfy`, `training.dfy`: the three
    components above.
  - `pipeline.dfy`: training and serving together.
- **State as values and as classes.** Each stateful component has:
  - a value type: `StoreState` or `ServerState`;
  - specification functions that say what each operation does to it
    (`UploadEffect`, `LoadSpec`, `PredictSpec`, `TrainSpec`, …);
  - a class (`Store`, `Server`) whose fields the methods update in place.
    Each method is proved to follow its specification function.

  `train_model` is a method over a `Store`. Its store writes are also
  described as a plan of steps (`PublishPlan`), so that ordering can be
  stated.
- **Inputs instead of effects.** These become parameters:
  - environment variables: a `map<string, string>` with the same defaults;
  - the clock: the timestamp strings;
  - the trainer: a `Result` holding the fitted state and metrics;
  - the classifier: two functions that may fail with a message;
  - reachability of each remote backend: a flag in the store.
- **The store.**
  - The local filesystem is a map from path to content plus a set of
    directories. `os.makedirs` adds every ancestor.
  - Each remote backend is a map keyed by (bucket, key).
  - A ghost log records successful writes in order.

### Behaviour of the code the model keeps

- **The prefix alone picks the backend.** A path that starts with neither
  `s3://` nor `gs://` is copied locally (`src/utils.py:59-64`,
  `src/utils.py:94-98`). That includes a path with any other scheme.
- **File names.**
  - The model file is `model-<version>.pkl` in the output directory.
  - The registry key ends in `model.pkl`.
- **The clock.** The automatic tag is built from `datetime.now()`. The model
  takes the formatted timestamp as an input string.
- **Metrics path.** The metrics registry path is the registry path with
  *every* `.pkl` replaced by `-metrics.json` (`src/train.py:75`).
- **Re-running a version overwrites.** Running again with the same version
  overwrites the earlier files and objects.

## Model

| member | source | states |
|---|---|---|
| `Text.SplitFirst` | src/utils.py:42 | `split("/", 1)` unpacked into two names fails exactly when there is no '/'; otherwise the text is bucket + '/' + key and the bucket has no '/' |
| `Text.IntToStringInjective` | src/serve.py:149-152 | distinct integer classes give distinct `str(int(c))` labels, so prediction counters per class never merge |
| `Artifacts.Save` | src/model.py:85-96 | the saved bundle always records the version, and loading it gives back the same artifact |
| `Artifacts.Load` | src/model.py:98-113 | loading succeeds exactly on a model bundle; it keeps the fitted state and uses the recorded version, or "1.0.0" when none is recorded |
| `Registry.RegistryPath` | src/utils.py:10-29 | the resolved path always ends in "/" + version + "/model.pkl" for every registry type; the resolver is a total function of version and settings |
| `Registry.RegistryDir` | src/utils.py:22-29 | the resolver's path, for every registry type, is this directory followed by "/model.pkl" |
| `Registry.RegistryDirForm` | src/utils.py:22-29 | the registry directory is "s3://<bucket>/models/<version>" or "gs://<bucket>/models/<version>" for the two bucket types and "<base>/<version>" for every other type |
| `Registry.RegistryDirKeepsText` | src/train.py:75 | replacing ".pkl" by "-metrics.json" leaves the registry directory unchanged when no ".pkl" is in the version, the bucket or the base path |
| `Registry.BackendOf` | src/utils.py:39-48 | a path goes to S3 exactly when it starts with "s3://", to GCS exactly when it starts with "gs://", and to the local copy otherwise; no path is refused |
| `Registry.RemoteLocation` | src/utils.py:41-42 | the split fails exactly when no '/' is left after every scheme occurrence is removed; otherwise the remainder is bucket + '/' + key with no '/' in the bucket |
| `Registry.ResolvedBackend` | src/utils.py:19-48 | type "s3" resolves to a path dispatched to S3 and "gcs" to GCS; any other type (a base path without ':') resolves to a local path |
| `Registry.SplitRemotePath` | src/utils.py:41-42 | stripping the scheme and splitting `scheme + bucket + "/" + key` yields exactly (bucket, key) when the bucket has no '/', the key is non-empty, holds no scheme text, and does not start with a character of the scheme (bucket "s3:" with key "/x" shows the last condition is needed) |
| `Registry.RemoteRoundTrip` | src/utils.py:22-51 | for s3 and gcs, when the configured bucket has no '/' and the key "models/<version>/model.pkl" holds no scheme text, splitting the resolver's path gives back that bucket and that key |
| `Registry.SplitRemotePathLosesKey` | src/utils.py:41-42 | when the key contains the scheme text, `str.replace` deletes it there too and the split key is not the original key |
| `Registry.SchemeInKeyBreaksRoundTrip` | src/utils.py:24-42 | the resolver-to-upload round trip fails when the key contains the scheme text |
| `Registry.SchemeAcrossVersionSeam` | src/utils.py:24-42 | a version without "s3://" can still create it across the seam with the key template (version "s3:/"), so the key, not just the version, must be free of scheme text |
| `Registry.MetricsRegistryPath` | src/train.py:73-75 | when no ".pkl" is in the version, bucket or base path, the metrics registry path is the model's registry directory + "/model-metrics.json" |
| `ArtifactStore.MakeDirsEffect` | src/utils.py:61 | `os.makedirs(d, exist_ok=True)` succeeds exactly when `d` is not empty; on success `d` exists afterwards; only directories are added |
| `ArtifactStore.MakeDirsIdempotent` | src/utils.py:61 | creating the same directories twice is the same as creating them once |
| `ArtifactStore.WriteEffect` | src/train.py:64-65 | writing a file succeeds exactly when the name is non-empty and its directory exists; it then sets that one file and logs the write; a failed write changes nothing |
| `ArtifactStore.CopyEffect` | src/utils.py:62-63 | `shutil.copy2` succeeds exactly when the source exists, differs from the destination, and the destination's directory exists; the destination then holds the source's contents |
| `ArtifactStore.LocalUploadEffect` | src/utils.py:59-64 | a local upload succeeds exactly when the target has a directory part, the source exists and differs from the target; the target then holds the source's contents; buckets are untouched |
| `ArtifactStore.RemoteUploadEffect` | src/utils.py:39-57 | a remote upload succeeds exactly when the path splits into bucket and key, the file exists and the backend is reachable; only that object changes; a failure changes nothing |
| `ArtifactStore.UploadEffect` | src/utils.py:32-64 | a successful upload puts the local file's contents at exactly the location the path names and changes no other location; a failed one changes no file or object |
| `ArtifactStore.DownloadEffect` | src/utils.py:67-98 | a download never creates directories and never touches a bucket; on success only the destination file changes, to the contents at the named location; the success conditions per backend are exact |
| `ArtifactStore.DistinctTargets` | src/utils.py:41-51 | two paths whose last characters differ (and are not scheme characters) never name the same location |
| `ArtifactStore.UploadsToDistinctTargets` | src/train.py:74-75 | two successful uploads to different locations, where the first does not overwrite the second's source, leave each location holding the file uploaded to it |
| `ArtifactStore.UploadThenDownload` | src/utils.py:59-98 | on every backend, downloading what was just uploaded into a file whose directory exists (and which, for a local registry, is not the registry file itself) restores the uploaded contents |
| `ArtifactStore.Store.MakeDirs` | src/utils.py:61 | the in-place directory creation follows `MakeDirsEffect` |
| `ArtifactStore.Store.WriteFile` | src/train.py:64-65 | the in-place file write follows `WriteEffect` |
| `ArtifactStore.Store.Copy` | src/utils.py:62-63 | the in-place copy follows `CopyEffect` |
| `ArtifactStore.Store.Upload` | src/utils.py:32-64 | `upload_to_registry` on the store's fields follows `UploadEffect` |
| `ArtifactStore.Store.Download` | src/utils.py:67-98 | `download_from_registry` on the store's fields follows `DownloadEffect` |
| `Serving.Inc` | src/serve.py:137 | incrementing a counter child raises that child by exactly one (from 0 if new) and leaves every other child unchanged |
| `Serving.ModelPath` | src/serve.py:78 | the model path is `MODEL_PATH` when set, else "./models/model.pkl" |
| `Serving.StartupVersion` | src/serve.py:101 | the startup version is present exactly when `MODEL_VERSION` is set, and the registry is consulted exactly when it is set and non-empty |
| `Serving.Fetched` | src/serve.py:80-87 | without a non-empty version the registry is not consulted and the store is unchanged |
| `Serving.LoadSpec` | src/serve.py:70-95 | `load_model` never moves a counter; a failure leaves the server unchanged; it succeeds exactly when the model path holds a model bundle after the optional download; then the model and the version label come from that bundle |
| `Serving.HealthOf` | src/serve.py:106-113 | `/health` always answers "healthy" with the current version label, and `model_loaded` is true exactly when a model is held |
| `Serving.ReadyOf` | src/serve.py:116-121 | `/ready` fails with 503 "Model not loaded" exactly when no model is held, and otherwise answers "ready" with the version label |
| `Serving.RootOf` | src/serve.py:170-184 | `/` reports API version "1.0.0", the current model version and the five endpoint paths |
| `Serving.PredictSpec` | src/serve.py:124-161 | without a model: 503 and no counter moves; with one, the request counter for the version rises by one; on success the class counter rises by one and the response carries class, probabilities and version; on a classifier error the answer is 400 "Prediction error: …" and the prediction counter is unchanged; model and version label never change |
| `Serving.InitialConsistent` | src/serve.py:47-48 | the process starts with no model, version "unknown", and consistent (empty) counters |
| `Serving.PredictKeepsCountersConsistent` | src/serve.py:134-152 | every prediction counter stays at most the request counter of its version across a request |
| `Serving.LoadKeepsCountersConsistent` | src/serve.py:76-94 | loading a model keeps the counter invariant |
| `Serving.ReadyAfterLoad` | src/serve.py:90-121 | after a successful load `/ready` succeeds with the loaded artifact's version and `/health` reports a loaded model |
| `Serving.NotReadyBeforeLoad` | src/serve.py:116-137 | before any load, `/ready` and `/predict` answer 503, nothing is counted, and `/health` reports no model and version "unknown" |
| `Serving.RegistryModelLoads` | src/serve.py:78-94 | loading a version whose registry location holds a saved artifact loads that artifact when the backend is reachable and the model path can be created, including when the local registry file is the model path itself |
| `Serving.RequestsCounted` | src/serve.py:137 | with a model loaded, n requests, successful or not, raise the version's request counter by exactly n and no other request counter |
| `Serving.DistinctClassesDistinctLabels` | src/serve.py:149-152 | from one state, a successful prediction of a class raises that class's prediction child by one, and a successful prediction of a different class leaves that child unchanged |
| `Serving.Server.constructor` | src/serve.py:47-48 | the globals start with no model and version "unknown", and the counters start empty |
| `Serving.Server.LoadModel` | src/serve.py:70-95 | `load_model` on the globals and the store follows `LoadSpec` |
| `Serving.Server.Startup` | src/serve.py:98-103 | startup follows `LoadSpec` for the version read from `MODEL_VERSION`: the model is fetched through the registry when that variable is set and non-empty, and otherwise only the local `MODEL_PATH` file is loaded |
| `Serving.Server.HealthCheck` | src/serve.py:106-113 | the handler answers `HealthOf` of the current globals and writes nothing |
| `Serving.Server.ReadinessCheck` | src/serve.py:116-121 | the handler answers `ReadyOf` of the current globals and writes nothing |
| `Serving.Server.Root` | src/serve.py:170-184 | the handler answers `RootOf` of the current globals and writes nothing |
| `Serving.Server.Predict` | src/serve.py:124-161 | the handler updates the counters in place as `PredictSpec` says |
| `Training.VersionTag` | src/train.py:47-49 | a missing or empty tag becomes "v" + timestamp; any other tag is used verbatim; the tag is never empty |
| `Training.AutoTagSafe` | src/train.py:47-49 | an automatic tag has no '/', no ".pkl", and gives a registry key free of both schemes, so the round trip and the metrics path rule apply to it |
| `Training.FileNamesDistinct` | src/train.py:55-60 | a run's model and metrics files never share a path, and each file name determines the tag |
| `Training.ArtifactsShareDirectory` | src/train.py:54-60 | for a tag without '/', both files land in the same directory, which is not the working directory when an output directory is given |
| `Training.ModelFile` | src/train.py:55 | the model file is the output directory, one separator if needed, then "model-" + tag + ".pkl" |
| `Training.MetricsFile` | src/train.py:60 | the metrics file is the output directory, one separator if needed, then "metrics-" + tag + ".json" |
| `Training.InjectMetrics` | src/train.py:61-62 | the returned metrics are the trainer's with `version` set to the tag and `timestamp` added, and every other key unchanged |
| `Training.MetricsRegistryFor` | src/train.py:75 | the sidecar path replaces every ".pkl"; a path without ".pkl" is left unchanged, so the sidecar would land on the model's own location |
| `Training.SavePlan` | src/train.py:54-65 | the local half has four steps, uploads nothing, and writes exactly the model file and then the metrics file |
| `Training.UploadPlan` | src/train.py:73-75 | the registry half uploads twice, and when both paths name a location it writes the model's location and then the sidecar's |
| `Training.PublishPlan` | src/train.py:54-76 | the protocol has six steps with upload and four without, and it uploads something exactly when `upload` is set |
| `Training.PlanWrites` | src/train.py:54-76 | the locations the protocol writes are the model file, the metrics file and, with upload, the two registry locations, in that order |
| `Training.TrainSpec` | src/train.py:15-78 | a trainer that raises leaves the store alone; a store failure is reported as such; a successful result is the trainer's metrics stamped with the tag and the time; without upload no bucket changes |
| `Training.RunUploadPlan` | src/train.py:73-75 | the registry half uploads the model and, only if that succeeds, the metrics to the sidecar path |
| `Training.PublishOrder` | src/train.py:54-76 | a successful run writes the model file, then the metrics file, then (with upload) the model's registry location, then the metrics' location, and nothing else; without upload no bucket changes |
| `Training.LocalPublishSucceeds` | src/train.py:54-66 | without upload, a named output directory and a tag without '/' always publish: the model file holds the tagged bundle, the metrics file the stamped metrics |
| `Training.SavePlanRuns` | src/train.py:54-65 | for a named output directory and a tag without '/', the local half always succeeds and changes exactly the model file and the metrics file |
| `Training.SavedContents` | src/train.py:51-65 | after the local half, the model file holds the bundle whose version is the tag, and the metrics file holds the stamped metrics |
| `Training.ExitCode` | src/train.py:110-126 | the exit status is 0 or 1, and 0 exactly when the run succeeded and `test_score` is present, numeric and at least 0.5 |
| `Training.ExitCodeFollowsTrainer` | src/train.py:110-126 | stamping the metrics never changes the gate: the exit status is 0 exactly when publishing succeeded and the trainer's own `test_score` passes |
| `Training.TrainModel` | src/train.py:15-78 | `train_model` against the store follows `TrainSpec` |
| `Training.SaveArtifacts` | src/train.py:54-65 | the output directory, the model's directory, the model file and the metrics file are created in that order, stopping at the first failure |
| `Training.UploadArtifacts` | src/train.py:71-76 | the model is uploaded to the registry path and then the metrics to the sidecar path, stopping at the first failure |
| `Training.TrainCommand` | src/train.py:81-126 | the command uses `--output-dir` or else `MODEL_OUTPUT_DIR` or "./models", runs `train_model`, and exits with `ExitCode` of the outcome |
| `Pipeline.RegistryLocationsDistinct` | src/train.py:73-75 | when no ".pkl" is in the tag, the bucket or the base path, and both paths name a location, the metrics upload never overwrites the model's registry location |
| `Pipeline.PublishedToRegistry` | src/train.py:71-76 | when no ".pkl" is in the tag, the bucket or the base path, after a successful run with upload the model's registry location holds the bundle saved under the run's version, the metrics sidecar's location holds the stamped metrics, and a remote backend that took the upload is reachable |
| `Pipeline.PublishedModelServes` | src/serve.py:78-94 | when no ".pkl" is in the tag, the bucket or the base path, a server started with the run's version and the same registry settings, on a store holding the same files, directories and objects as the published one, loads exactly the trained state labelled with that version on every backend, provided the serving process can reach a remote registry and the serving `MODEL_PATH` can be created (non-empty, its directory existing) |

## Left out

- **The learning library and pickle.** Scikit-learn fitting, scoring and
  prediction are out, and so is the byte format pickle writes. The fitted
  state is an opaque token. The classifier and the trainer are function
  parameters. `generate_sample_data`, `n_samples` and `--samples` are not
  modelled.
- **Cloud SDK behaviour.** Credentials, retries and the clients' own
  failures are out. A remote backend is a map with a reachability flag, and
  any SDK failure is that flag being off.
- **Filesystem details.**
  - A file and a directory may share a name.
  - A copy into an existing directory is not modelled.
  - A write that fails halfway is not modelled: writes are all-or-nothing.
  - `shutil.copy2`'s metadata copy is not modelled.
- **`REQUEST_DURATION` and `/metrics`.** The histogram (wall-clock, floating
  point) and the exposition format are out. Only the two counters are kept,
  as maps to `nat`.
- **Web framework wiring.** FastAPI routing, pydantic validation and JSON
  coercion are out, as are `/docs` and `main`'s host and port parsing.
  Malformed request bodies therefore do not appear; a classifier failure
  stands for every error inside the `try`.
- **Concurrency.** Requests are handled one after another. Counter atomicity
  belongs to the metrics library.
- **Floating point.** Scores and probabilities are reals, so a NaN
  `test_score` (which passes the gate in Python) is not modelled.
- **Logging.** Printed messages are out.
- **`TRAINING_SAMPLES` parsing.** `int(os.getenv("TRAINING_SAMPLES", "1000"))`
  is evaluated before the `try` in `main`. It is not modelled together with
  `--samples`.
- **Reading a directory as a model.** `Serving.LoadSpec` treats it as a load
  failure with a fixed reason. The reason text of Python's `IsADirectoryError`
  is not modelled.
- **Error message text.** Every `StoreError` and `LoadError` message is
  abstract. Only the HTTP detail strings of `serve.py` are exact.
- **A failed startup load.** In the service, a failed `load_model` at startup
  (`src/serve.py:98-103`) stops the application from starting.
  `Serving.Server.Startup` returns the failure and leaves the server as it
  was; what the web framework does with the failure is not modelled.
- ArtifactStore.CanCreate, ArtifactStore.CopyEffect: local paths are compared as strings.
  - `"./models"` and `"models"` are different directories in the model but the same directory on disk.
  - The same-file test of `shutil.copy2` is `os.path.samefile`, not string equality.
  - For example: after a run with `--output-dir models`, the model says a download into the default `./models/model.pkl` fails because `"./models"` was never created. Python succeeds.
  - Path normalisation, symbolic links and the working directory are not modelled.
- ArtifactStore.DownloadEffect, Serving.LoadSpec: a failed download is modelled as leaving the destination file alone.
  - A client library that opens the destination for writing before it fetches can instead truncate or remove an existing local model when the object is missing or the connection drops; `load_model` then fails.
  - That library behaviour is outside the repository's code and is not modelled.
- Pipeline.PublishedModelServes: training and serving are two processes, and the model joins them only through `Pipeline.SameContents`.
  - The serving process is assumed to see the same files, directories and bucket objects that the training run left.
  - For a local registry, that means a shared filesystem; for a remote one, the same bucket with no other writer in between.
  - Whether the serving process can reach a remote registry, or create its model path, is a hypothesis of the lemma, not a consequence of the training run's successful upload.
