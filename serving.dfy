/**
 * The serving process: a model slot that starts empty, the version label of
 * the loaded model, and two Prometheus counters keyed by labels
 * (`ml_requests_total` by model version, `ml_predictions_total` by model
 * version and predicted class). `ServerState` is that state as a value and
 * the `...Of`/`...Spec` functions say what each endpoint does to it; the
 * `Server` class holds it in fields and its methods are proved to follow
 * those functions.
 */
module Serving {
  import opened Wrappers
  import opened Text
  import opened Artifacts
  import opened Registry
  import opened ArtifactStore

  const DefaultModelPath := "./models/model.pkl"
  const UnknownVersion := "unknown"
  const ApiVersion := "1.0.0"
  const NotLoaded := "Model not loaded"
  const PredictionErrorPrefix := "Prediction error: "

  datatype ServerState = ServerState(
    model: Option<Artifact>,
    modelVersion: string,
    requests: map<string, nat>,
    predictions: map<(string, string), nat>)

  /** The process before `load_model` has run: no model, version "unknown", no counter children. */
  const Initial := ServerState(None, UnknownVersion, map[], map[])

  /** An `HTTPException`. */
  datatype HttpError = HttpError(status: nat, detail: string)

  datatype Health = Health(status: string, modelVersion: string, modelLoaded: bool)
  datatype Readiness = Readiness(status: string, modelVersion: string)
  datatype Prediction = Prediction(prediction: int, probabilities: seq<real>, modelVersion: string)
  datatype Info = Info(name: string, version: string, modelVersion: string, endpoints: map<string, string>)

  /** The value of a counter child; a label set never incremented reads 0. */
  function Count<K(!new)>(counter: map<K, nat>, child: K): nat {
    if child in counter then counter[child] else 0
  }

  /** `counter.labels(child).inc()`. */
  function Inc<K(!new)>(counter: map<K, nat>, child: K): (r: map<K, nat>)
    ensures Count(r, child) == Count(counter, child) + 1
    ensures forall k :: k != child ==> Count(r, k) == Count(counter, k)
    ensures r.Keys == counter.Keys + {child}
  {
    counter[child := Count(counter, child) + 1]
  }

  /** The classifier's two calls, each of which may raise with a message. */
  type Classify = (ModelState, seq<real>) -> Result<int, string>
  type Probabilities = (ModelState, seq<real>) -> Result<seq<real>, string>

  // ---------------------------------------------------------------- load_model

  datatype LoadError = ModelNotFound(path: string) | LoadFailed(path: string, reason: string)

  datatype LoadOutcome = LoadOutcome(server: ServerState, store: StoreState, result: Result<(), LoadError>)

  /** `os.getenv("MODEL_PATH", "./models/model.pkl")`. */
  function ModelPath(env: Env): (p: string)
    ensures "MODEL_PATH" in env ==> p == env["MODEL_PATH"]
    ensures "MODEL_PATH" !in env ==> p == DefaultModelPath && p != ""
  {
    Getenv(env, "MODEL_PATH", DefaultModelPath)
  }

  /** `if version:` — the registry is consulted only for a present, non-empty version. */
  predicate Requested(version: Option<string>) {
    version.Some? && version.value != ""
  }

  /** The store after the optional registry download; a failed download is ignored. */
  function Fetched(st: StoreState, version: Option<string>, env: Env): (st': StoreState)
    ensures !Requested(version) ==> st' == st
  {
    if Requested(version) then DownloadEffect(st, RegistryPath(version.value, env), ModelPath(env)).after
    else st
  }

  /**
   * `load_model(version)`: after the optional download, a missing model
   * file raises and leaves the server as it was; a file that does not
   * unpickle into a model raises too; otherwise the model slot and the
   * version label take the loaded artifact and its version. The counters
   * are never touched.
   */
  function LoadSpec(s: ServerState, st: StoreState, version: Option<string>, env: Env): (o: LoadOutcome)
    ensures o.store == Fetched(st, version, env)
    ensures o.server.requests == s.requests && o.server.predictions == s.predictions
    ensures o.result.Failure? ==> o.server == s
    ensures o.result.Success? <==>
              ModelPath(env) in o.store.files && o.store.files[ModelPath(env)].ModelBlob?
    ensures o.result.Success? ==>
              o.server.model == Some(Load(o.store.files[ModelPath(env)]).value) &&
              o.server.modelVersion == o.server.model.value.version
  {
    var path := ModelPath(env);
    var st' := Fetched(st, version, env);
    if path !in st'.files && path !in st'.dirs then LoadOutcome(s, st', Failure(ModelNotFound(path)))
    else if path !in st'.files then LoadOutcome(s, st', Failure(LoadFailed(path, "is a directory")))
    else match Load(st'.files[path])
      case Failure(reason) => LoadOutcome(s, st', Failure(LoadFailed(path, reason)))
      case Success(a) => LoadOutcome(s.(model := Some(a), modelVersion := a.version), st', Success(()))
  }

  /** The `MODEL_VERSION` setting read at startup; an unset variable is None. */
  function StartupVersion(env: Env): (v: Option<string>)
    ensures v.Some? <==> "MODEL_VERSION" in env
    ensures v.Some? ==> v.value == env["MODEL_VERSION"]
    ensures Requested(v) <==> "MODEL_VERSION" in env && env["MODEL_VERSION"] != ""
  {
    if "MODEL_VERSION" in env then Some(env["MODEL_VERSION"]) else None
  }

  // ---------------------------------------------------------------- read-only endpoints

  /** `/health` never fails; it reports the version label and whether a model is held. */
  function HealthOf(s: ServerState): (h: Health)
    ensures h.status == "healthy" && h.modelVersion == s.modelVersion
    ensures h.modelLoaded <==> s.model.Some?
  {
    Health("healthy", s.modelVersion, s.model.Some?)
  }

  /** `/ready` answers 503 exactly when no model is held. */
  function ReadyOf(s: ServerState): (r: Result<Readiness, HttpError>)
    ensures r.Failure? <==> s.model.None?
    ensures r.Failure? ==> r.error == HttpError(503, NotLoaded)
    ensures r.Success? ==> r.value == Readiness("ready", s.modelVersion)
  {
    if s.model.None? then Failure(HttpError(503, NotLoaded))
    else Success(Readiness("ready", s.modelVersion))
  }

  /** `/`: the API's own version and the current model version label. */
  function RootOf(s: ServerState): (i: Info)
    ensures i.version == ApiVersion && i.modelVersion == s.modelVersion
    ensures i.endpoints.Keys == {"health", "ready", "predict", "metrics", "docs"}
    ensures forall k :: k in i.endpoints ==> i.endpoints[k] == "/" + k
  {
    Info("MLOps Model Serving API", ApiVersion, s.modelVersion,
         map["health" := "/health", "ready" := "/ready", "predict" := "/predict",
             "metrics" := "/metrics", "docs" := "/docs"])
  }

  // ---------------------------------------------------------------- predict

  datatype PredictOutcome = PredictOutcome(server: ServerState, response: Result<Prediction, HttpError>)

  /**
   * `/predict`. Without a model: 503 and no counter moves. With one: the
   * request counter for the current version rises by one whatever happens
   * next; if both classifier calls succeed the prediction counter for
   * (version, str(class)) rises by one and the response carries the class,
   * the probabilities and the version; if either raises the answer is 400
   * with the exception's text and the prediction counter stays put. The
   * model slot and the version label are never written.
   */
  function PredictSpec(s: ServerState, features: seq<real>, classify: Classify, proba: Probabilities): (o: PredictOutcome)
    ensures o.server.model == s.model && o.server.modelVersion == s.modelVersion
    ensures s.model.None? ==> o.server == s && o.response == Failure(HttpError(503, NotLoaded))
    ensures s.model.Some? ==> o.server.requests == Inc(s.requests, s.modelVersion)
    ensures o.response.Success? <==>
              s.model.Some? && classify(s.model.value.state, features).Success? &&
              proba(s.model.value.state, features).Success?
    ensures o.response.Success? ==>
              var c := classify(s.model.value.state, features).value;
              o.response.value == Prediction(c, proba(s.model.value.state, features).value, s.modelVersion) &&
              o.server.predictions == Inc(s.predictions, (s.modelVersion, IntToString(c)))
    ensures o.response.Failure? ==> o.server.predictions == s.predictions
    ensures s.model.Some? && o.response.Failure? ==>
              o.response.error.status == 400 && StartsWith(o.response.error.detail, PredictionErrorPrefix)
  {
    match s.model
    case None => PredictOutcome(s, Failure(HttpError(503, NotLoaded)))
    case Some(m) =>
      var counted := s.(requests := Inc(s.requests, s.modelVersion));
      match classify(m.state, features)
      case Failure(e) => PredictOutcome(counted, Failure(HttpError(400, PredictionErrorPrefix + e)))
      case Success(c) =>
        match proba(m.state, features)
        case Failure(e) => PredictOutcome(counted, Failure(HttpError(400, PredictionErrorPrefix + e)))
        case Success(p) =>
          var child := (s.modelVersion, IntToString(c));
          PredictOutcome(counted.(predictions := Inc(s.predictions, child)), Success(Prediction(c, p, s.modelVersion)))
  }

  // ---------------------------------------------------------------- properties

  /**
   * Every prediction child belongs to a version that has a request child
   * at least as large: a prediction is only ever counted after its request.
   */
  ghost predicate CountersConsistent(s: ServerState) {
    forall child :: child in s.predictions ==> s.predictions[child] <= Count(s.requests, child.0)
  }

  lemma InitialConsistent()
    ensures CountersConsistent(Initial)
    ensures Initial.model.None? && Initial.modelVersion == "unknown"
  {
  }

  lemma PredictKeepsCountersConsistent(s: ServerState, features: seq<real>, classify: Classify, proba: Probabilities)
    requires CountersConsistent(s)
    ensures CountersConsistent(PredictSpec(s, features, classify, proba).server)
  {
    var o := PredictSpec(s, features, classify, proba);
    forall child | child in o.server.predictions
      ensures o.server.predictions[child] <= Count(o.server.requests, child.0)
    {
      if s.model.Some? {
        assert Count(o.server.requests, child.0) >= Count(s.requests, child.0);
        if child in s.predictions {
          assert s.predictions[child] <= Count(s.requests, child.0);
        }
      }
    }
  }

  lemma LoadKeepsCountersConsistent(s: ServerState, st: StoreState, version: Option<string>, env: Env)
    requires CountersConsistent(s)
    ensures CountersConsistent(LoadSpec(s, st, version, env).server)
  {
  }

  /** A successful load makes the server ready, reporting the loaded artifact's version. */
  lemma ReadyAfterLoad(s: ServerState, st: StoreState, version: Option<string>, env: Env)
    requires LoadSpec(s, st, version, env).result.Success?
    ensures var s' := LoadSpec(s, st, version, env).server;
            ReadyOf(s').Success? && ReadyOf(s').value.modelVersion == s'.model.value.version &&
            HealthOf(s').modelLoaded
  {
  }

  /** Before any successful load, `/ready` and `/predict` both answer 503 and nothing is counted. */
  lemma NotReadyBeforeLoad(features: seq<real>, classify: Classify, proba: Probabilities)
    ensures ReadyOf(Initial) == Failure(HttpError(503, NotLoaded))
    ensures PredictSpec(Initial, features, classify, proba) ==
            PredictOutcome(Initial, Failure(HttpError(503, NotLoaded)))
    ensures !HealthOf(Initial).modelLoaded && HealthOf(Initial).modelVersion == "unknown"
  {
  }

  /**
   * Loading a version whose registry location holds a saved artifact loads
   * that artifact, whenever the backend is reachable and the model path can
   * be created. If the registry is local and is the model path itself, the
   * download fails, is ignored, and the same file is read in place.
   */
  lemma RegistryModelLoads(s: ServerState, st: StoreState, version: string, env: Env, a: Artifact)
    requires version != ""
    requires Target(RegistryPath(version, env)).Some?
    requires Lookup(st, Target(RegistryPath(version, env)).value) == Some(Save(a))
    requires BackendOf(RegistryPath(version, env)) != Local ==> Online(st, BackendOf(RegistryPath(version, env)))
    requires CanCreate(st, ModelPath(env))
    ensures LoadSpec(s, st, Some(version), env).result.Success?
    ensures LoadSpec(s, st, Some(version), env).server.model == Some(a)
    ensures LoadSpec(s, st, Some(version), env).server.modelVersion == a.version
  {
    var registryPath, modelFile := RegistryPath(version, env), ModelPath(env);
    var down := DownloadEffect(st, registryPath, modelFile);
    if BackendOf(registryPath) != Local || registryPath != modelFile {
      assert down.outcome.Success?;
    }
    assert down.after.files[modelFile] == Save(a);
  }

  /** The outcome of serving a batch of requests one after another. */
  function PredictAll(s: ServerState, batch: seq<seq<real>>, classify: Classify, proba: Probabilities): (s': ServerState)
    decreases |batch|
  {
    if batch == [] then s
    else PredictAll(PredictSpec(s, batch[0], classify, proba).server, batch[1..], classify, proba)
  }

  /**
   * With a model loaded, `n` requests raise the request counter of the
   * current version by exactly `n`, successful or not, and move no other
   * request counter; the model and its version stay as they were.
   */
  lemma {:induction false} RequestsCounted(s: ServerState, batch: seq<seq<real>>, classify: Classify, proba: Probabilities)
    requires s.model.Some?
    ensures PredictAll(s, batch, classify, proba).model == s.model
    ensures PredictAll(s, batch, classify, proba).modelVersion == s.modelVersion
    ensures Count(PredictAll(s, batch, classify, proba).requests, s.modelVersion) ==
            Count(s.requests, s.modelVersion) + |batch|
    ensures forall v :: v != s.modelVersion ==>
              Count(PredictAll(s, batch, classify, proba).requests, v) == Count(s.requests, v)
    decreases |batch|
  {
    if batch != [] {
      RequestsCounted(PredictSpec(s, batch[0], classify, proba).server, batch[1..], classify, proba);
    }
  }

  /**
   * From the same state, a successful prediction of one class raises that
   * class's prediction child by one, while a successful prediction of a
   * different class leaves that child as it was: classes never share a child.
   */
  lemma DistinctClassesDistinctLabels(s: ServerState, features: seq<real>, other: seq<real>,
                                      classify: Classify, proba: Probabilities)
    requires s.model.Some?
    requires PredictSpec(s, features, classify, proba).response.Success?
    requires PredictSpec(s, other, classify, proba).response.Success?
    requires classify(s.model.value.state, features).value != classify(s.model.value.state, other).value
    ensures var child := (s.modelVersion, IntToString(classify(s.model.value.state, features).value));
            Count(PredictSpec(s, features, classify, proba).server.predictions, child) == Count(s.predictions, child) + 1 &&
            Count(PredictSpec(s, other, classify, proba).server.predictions, child) == Count(s.predictions, child)
  {
    var a := classify(s.model.value.state, features).value;
    var b := classify(s.model.value.state, other).value;
    if IntToString(a) == IntToString(b) {
      IntToStringInjective(a, b);
    }
  }

  // ---------------------------------------------------------------- the process

  /** The module-level globals of the serving process and its counters. */
  class Server {
    var model: Option<Artifact>
    var modelVersion: string
    var requests: map<string, nat>
    var predictions: map<(string, string), nat>

    ghost function State(): ServerState
      reads this
    {
      ServerState(model, modelVersion, requests, predictions)
    }

    constructor ()
      ensures State() == Initial
    {
      model, modelVersion, requests, predictions := None, UnknownVersion, map[], map[];
    }

    method LoadModel(store: Store, version: Option<string>, env: Env) returns (r: Result<(), LoadError>)
      modifies this, store
      ensures LoadOutcome(State(), store.State(), r) == LoadSpec(old(State()), old(store.State()), version, env)
    {
      var path := ModelPath(env);
      if version.Some? && version.value != "" {
        var registryPath := RegistryPath(version.value, env);
        var downloaded := store.Download(registryPath, path);
      }
      if path !in store.files && path !in store.dirs {
        return Failure(ModelNotFound(path));
      }
      if path !in store.files {
        return Failure(LoadFailed(path, "is a directory"));
      }
      var loaded := Load(store.files[path]);
      if loaded.Failure? {
        return Failure(LoadFailed(path, loaded.error));
      }
      model := Some(loaded.value);
      modelVersion := loaded.value.version;
      r := Success(());
    }

    /** The startup hook: load whatever `MODEL_VERSION` names (or the local file when it is unset). */
    method Startup(store: Store, env: Env) returns (r: Result<(), LoadError>)
      modifies this, store
      ensures LoadOutcome(State(), store.State(), r) ==
              LoadSpec(old(State()), old(store.State()), StartupVersion(env), env)
    {
      r := LoadModel(store, StartupVersion(env), env);
    }

    method HealthCheck() returns (h: Health)
      ensures h == HealthOf(State())
    {
      h := Health("healthy", modelVersion, model.Some?);
    }

    method ReadinessCheck() returns (r: Result<Readiness, HttpError>)
      ensures r == ReadyOf(State())
    {
      if model.None? {
        return Failure(HttpError(503, NotLoaded));
      }
      r := Success(Readiness("ready", modelVersion));
    }

    method Root() returns (i: Info)
      ensures i == RootOf(State())
    {
      i := Info("MLOps Model Serving API", ApiVersion, modelVersion,
                map["health" := "/health", "ready" := "/ready", "predict" := "/predict",
                    "metrics" := "/metrics", "docs" := "/docs"]);
    }

    method Predict(features: seq<real>, classify: Classify, proba: Probabilities)
      returns (r: Result<Prediction, HttpError>)
      modifies this
      ensures PredictOutcome(State(), r) == PredictSpec(old(State()), features, classify, proba)
    {
      if model.None? {
        return Failure(HttpError(503, NotLoaded));
      }
      var m := model.value;
      requests := requests[modelVersion := Count(requests, modelVersion) + 1];
      var c := classify(m.state, features);
      if c.Failure? {
        return Failure(HttpError(400, PredictionErrorPrefix + c.error));
      }
      var p := proba(m.state, features);
      if p.Failure? {
        return Failure(HttpError(400, PredictionErrorPrefix + p.error));
      }
      var child := (modelVersion, IntToString(c.value));
      predictions := predictions[child := Count(predictions, child) + 1];
      r := Success(Prediction(c.value, p.value, modelVersion));
    }
  }
}
