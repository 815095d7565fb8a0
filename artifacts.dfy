/**
 * The trainable model as the rest of the system sees it: an opaque fitted
 * state plus a version tag, and the pickled bundle it is saved as. The
 * learning algorithm and the byte-level pickle format are not modelled.
 */
module Artifacts {
  import opened Wrappers

  /** The fitted classifier, as an opaque token. */
  datatype ModelState = ModelState(id: nat)

  /** A loaded model: the object `MLModel.load` returns. */
  datatype Artifact = Artifact(state: ModelState, version: string)

  /** A value in the training-metrics dictionary (a JSON number or string). */
  datatype MetricValue = Number(value: real) | Label(text: string)

  type Metrics = map<string, MetricValue>

  /**
   * What a file or a remote object holds: a pickled model bundle (whose
   * `version` key may be absent), a metrics JSON document, or bytes of
   * any other kind.
   */
  datatype Blob =
    | ModelBlob(state: ModelState, version: Option<string>)
    | MetricsBlob(metrics: Metrics)
    | OtherBytes(bytes: seq<int>)

  /** The version `MLModel` carries before anyone assigns one. */
  const DefaultVersion := "1.0.0"

  /** `MLModel.save`: the bundle always records the version. */
  function Save(a: Artifact): (b: Blob)
    ensures b.ModelBlob? && b.version == Some(a.version)
    ensures Load(b) == Success(a)
  {
    ModelBlob(a.state, Some(a.version))
  }

  /**
   * `MLModel.load`: unpickling anything but a model bundle raises; a bundle
   * without a version loads as version "1.0.0".
   */
  function Load(b: Blob): (r: Result<Artifact, string>)
    ensures r.Success? <==> b.ModelBlob?
    ensures r.Success? ==> r.value.state == b.state
    ensures r.Success? ==> r.value.version == if b.version.Some? then b.version.value else "1.0.0"
  {
    match b
    case ModelBlob(state, version) => Success(Artifact(state, version.GetOr(DefaultVersion)))
    case _ => Failure("not a pickled model bundle")
  }
}
