/**
 * Registry paths: where a model version lives, and how an upload or download
 * decides which backend a path belongs to and which bucket and key it names.
 */
module Registry {
  import opened Wrappers
  import opened Text

  /** The process environment, as far as the registry reads it. */
  type Env = map<string, string>

  /** `os.getenv(name, default)`. */
  function Getenv(env: Env, name: string, default: string): string {
    if name in env then env[name] else default
  }

  const S3Scheme := "s3://"
  const GcsScheme := "gs://"
  const DefaultBucket := "mlops-models"

  function RegistryType(env: Env): string { Getenv(env, "MODEL_REGISTRY_TYPE", "local") }
  function BasePath(env: Env): string { Getenv(env, "MODEL_REGISTRY_PATH", "models") }
  function S3Bucket(env: Env): string { Getenv(env, "S3_BUCKET", DefaultBucket) }
  function GcsBucket(env: Env): string { Getenv(env, "GCS_BUCKET", DefaultBucket) }

  /** The object key a version is stored under in either bucket. */
  function RemoteKey(version: string): string { "models/" + version + "/model.pkl" }

  /**
   * `get_model_registry_path`: a fixed template per registry type. Only the
   * exact strings "s3" and "gcs" select a bucket; every other type, known or
   * not, falls back to the local base path.
   */
  function RegistryPath(version: string, env: Env): (r: string)
    ensures |r| >= |version| + 11 && r[|r| - |version| - 11..] == "/" + version + "/model.pkl"
  {
    var registryType := RegistryType(env);
    var basePath := BasePath(env);
    if registryType == "s3" then S3Scheme + S3Bucket(env) + "/" + RemoteKey(version)
    else if registryType == "gcs" then GcsScheme + GcsBucket(env) + "/" + RemoteKey(version)
    else
      assert (basePath + "/" + version + "/model.pkl")[|basePath|..] == "/" + version + "/model.pkl";
      basePath + "/" + version + "/model.pkl"
  }

  /** The directory part of `RegistryPath`: everything before its final "/model.pkl". */
  function RegistryDir(version: string, env: Env): (d: string)
    ensures RegistryPath(version, env) == d + "/model.pkl"
  {
    var p := RegistryPath(version, env);
    assert p[|p| - 10..] == ("/" + version + "/model.pkl")[|version| + 1..] == "/model.pkl";
    p[..|p| - 10]
  }

  /** The backends upload and download choose between. */
  datatype Backend = S3 | Gcs | Local

  /** The prefix test both `upload_to_registry` and `download_from_registry` make. */
  function BackendOf(path: string): (b: Backend)
    ensures b == S3 <==> StartsWith(path, S3Scheme)
    ensures b == Gcs <==> StartsWith(path, GcsScheme)
    ensures b == Local <==> !StartsWith(path, S3Scheme) && !StartsWith(path, GcsScheme)
  {
    if StartsWith(path, S3Scheme) then S3
    else if StartsWith(path, GcsScheme) then Gcs
    else Local
  }

  /**
   * Bucket and key of a remote path: every occurrence of the scheme text is
   * removed (`str.replace`, not a prefix strip) and the rest is split at its
   * first '/'; None when there is no '/' left and the unpacking raises.
   */
  function RemoteLocation(path: string, scheme: string): (r: Option<(string, string)>)
    requires scheme != []
    ensures r.None? <==> '/' !in ReplaceAll(path, scheme, "")
    ensures r.Some? ==>
              ReplaceAll(path, scheme, "") == r.value.0 + "/" + r.value.1 && '/' !in r.value.0
  {
    SplitFirst(ReplaceAll(path, scheme, ""), '/')
  }

  /** The scheme a remote backend's paths start with. */
  function SchemeOf(b: Backend): string
    requires b != Local
  {
    if b == S3 then S3Scheme else GcsScheme
  }

  /**
   * A path the resolver produces is dispatched to the backend the registry
   * type names; a local base path without ':' never looks like a bucket.
   */
  lemma ResolvedBackend(version: string, env: Env)
    ensures RegistryType(env) == "s3" ==> BackendOf(RegistryPath(version, env)) == S3
    ensures RegistryType(env) == "gcs" ==> BackendOf(RegistryPath(version, env)) == Gcs
    ensures RegistryType(env) !in {"s3", "gcs"} && ':' !in BasePath(env) ==>
              BackendOf(RegistryPath(version, env)) == Local
  {
    var p := RegistryPath(version, env);
    var base := BasePath(env);
    if RegistryType(env) == "s3" {
      assert p[..5] == S3Scheme;
    } else if RegistryType(env) == "gcs" {
      assert p[..5] == GcsScheme;
      assert p[..5] != S3Scheme;
    } else if ':' !in base {
      // Within the first three characters the path has a character that is
      // neither ':' nor a scheme letter at that place: a base character, or
      // the '/' after a short base.
      var k := if |base| >= 3 then 2 else |base|;
      assert p[k] == (if |base| >= 3 then base[2] else '/');
      assert p[..5][k] != S3Scheme[k] && p[..5][k] != GcsScheme[k];
    }
  }

  /** A bucket name without '/', followed by '/', cannot hold a scheme ending in "//". */
  lemma NoSchemeInBucket(bucket: string, scheme: string)
    requires '/' !in bucket && |scheme| >= 2 && scheme[|scheme| - 2] == '/'
    ensures !Occurs(bucket + "/", scheme)
  {
    OccursAt(bucket + "/", scheme);
  }

  /**
   * Removing the scheme from `scheme + bucket + "/" + key` and splitting at
   * the first '/' gives back the bucket and the key, when the bucket has no
   * '/' and the key neither holds the scheme nor starts with one of its
   * characters.
   */
  lemma {:induction false} SplitRemotePath(scheme: string, bucket: string, key: string)
    requires |scheme| >= 2 && scheme[|scheme| - 2] == '/'
    requires '/' !in bucket && key != [] && key[0] !in scheme && !Occurs(key, scheme)
    ensures RemoteLocation(scheme + bucket + "/" + key, scheme) == Some((bucket, key))
  {
    var p := scheme + bucket + "/" + key;
    assert StartsWith(p, scheme);
    ReplaceHit(p, scheme, "");
    assert p[|scheme|..] == (bucket + "/") + key;
    ReplaceConcat(bucket + "/", key, scheme, "");
    NoSchemeInBucket(bucket, scheme);
    ReplaceAbsent(bucket + "/", scheme, "");
    ReplaceAbsent(key, scheme, "");
    assert ReplaceAll(p, scheme, "") == bucket + ['/'] + key;
    SplitFirstOf(bucket, '/', key);
  }

  /**
   * Splitting a remote path the resolver built gives back exactly its bucket
   * and key, provided the bucket has no '/' and the key does not contain the
   * scheme text (which `str.replace` would also remove).
   */
  lemma RemoteRoundTrip(version: string, env: Env)
    requires RegistryType(env) == "s3" ==> '/' !in S3Bucket(env) && !Occurs(RemoteKey(version), S3Scheme)
    requires RegistryType(env) == "gcs" ==> '/' !in GcsBucket(env) && !Occurs(RemoteKey(version), GcsScheme)
    ensures RegistryType(env) == "s3" ==>
              RemoteLocation(RegistryPath(version, env), S3Scheme) == Some((S3Bucket(env), RemoteKey(version)))
    ensures RegistryType(env) == "gcs" ==>
              RemoteLocation(RegistryPath(version, env), GcsScheme) == Some((GcsBucket(env), RemoteKey(version)))
  {
    var key := RemoteKey(version);
    assert key[0] == 'm';
    if RegistryType(env) == "s3" {
      SplitRemotePath(S3Scheme, S3Bucket(env), key);
    } else if RegistryType(env) == "gcs" {
      SplitRemotePath(GcsScheme, GcsBucket(env), key);
    }
  }

  /**
   * The key condition of `SplitRemotePath` cannot be dropped: when the key
   * holds the scheme text, `str.replace` deletes it there too and the split
   * yields a shorter key.
   */
  lemma {:induction false} SplitRemotePathLosesKey(scheme: string, bucket: string, key: string)
    requires |scheme| >= 2 && scheme[|scheme| - 2] == '/'
    requires '/' !in bucket && key != [] && key[0] !in scheme && Occurs(key, scheme)
    ensures RemoteLocation(scheme + bucket + "/" + key, scheme) != Some((bucket, key))
  {
    var p := scheme + bucket + "/" + key;
    assert StartsWith(p, scheme);
    ReplaceHit(p, scheme, "");
    assert p[|scheme|..] == (bucket + "/") + key;
    ReplaceConcat(bucket + "/", key, scheme, "");
    NoSchemeInBucket(bucket, scheme);
    ReplaceAbsent(bucket + "/", scheme, "");
    DeleteShrinks(key, scheme);
  }

  /**
   * Splitting a resolved remote path gives back its key only if the key does
   * not hold the scheme text: together with `RemoteRoundTrip`, an exact
   * characterisation for buckets without '/'.
   */
  lemma SchemeInKeyBreaksRoundTrip(version: string, env: Env)
    requires RegistryType(env) == "s3" ==> '/' !in S3Bucket(env) && Occurs(RemoteKey(version), S3Scheme)
    requires RegistryType(env) == "gcs" ==> '/' !in GcsBucket(env) && Occurs(RemoteKey(version), GcsScheme)
    ensures RegistryType(env) == "s3" ==>
              RemoteLocation(RegistryPath(version, env), S3Scheme) != Some((S3Bucket(env), RemoteKey(version)))
    ensures RegistryType(env) == "gcs" ==>
              RemoteLocation(RegistryPath(version, env), GcsScheme) != Some((GcsBucket(env), RemoteKey(version)))
  {
    var key := RemoteKey(version);
    assert key[0] == 'm';
    if RegistryType(env) == "s3" {
      SplitRemotePathLosesKey(S3Scheme, S3Bucket(env), key);
    } else if RegistryType(env) == "gcs" {
      SplitRemotePathLosesKey(GcsScheme, GcsBucket(env), key);
    }
  }

  /**
   * A version need not contain the scheme text for its key to: "s3:/" does
   * not, but "models/s3://model.pkl" does.
   */
  lemma SchemeAcrossVersionSeam(version: string)
    requires version == "s3:/"
    ensures !Occurs(version, S3Scheme) && Occurs(RemoteKey(version), S3Scheme)
  {
    var key := RemoteKey(version);
    assert key[7..12] == S3Scheme;
    assert OccursAtIndex(key, S3Scheme, 7);
    OccursAt(key, S3Scheme);
  }

  /*
   * The next lemmas take the literal pieces of a path as parameters fixed by
   * a `requires` rather than writing the literals inline: with an inline
   * literal the verifier unfolds `ReplaceAll` over it at every use and runs
   * out of resources, while a parameter keeps each unfolding in the one
   * lemma that needs it.
   */

  /** `"/model.pkl".replace(".pkl", "-metrics.json")`, with the name given as "/mod" and "el.pkl" so no ".pkl" straddles the pieces. */
  lemma ReplaceModelFileName(head: string, tail: string, pat: string, rep: string)
    requires head == "/mod" && tail == "el.pkl" && pat == ".pkl" && rep == "-metrics.json"
    ensures ReplaceAll(head + tail, pat, rep) == head + "el-metrics.json"
  {
    ReplaceConcat(head, tail, pat, rep);
    NoCharNoOccur(head, pat, 0);
    ReplaceAbsent(head, pat, rep);
    ReplaceModelFileNameTail(tail);
  }

  /** `"el.pkl".replace(".pkl", "-metrics.json")`, one character at a time; `t` is the literal. */
  lemma ReplaceModelFileNameTail(t: string)
    requires t == "el.pkl"
    ensures ReplaceAll(t, ".pkl", "-metrics.json") == "el-metrics.json"
  {
    var pat, rep := ".pkl", "-metrics.json";
    ReplaceMissAt(t, pat, rep, 0);
    assert t[1..] == "l.pkl";
    ReplaceMissAt(t[1..], pat, rep, 0);
    assert t[1..][1..] == ".pkl";
    ReplaceHit(t[1..][1..], pat, rep);
  }

  /** A directory that keeps its text, followed by the model file name `head + tail` ("/model.pkl"), becomes the sidecar path. */
  lemma MetricsNextToModel(dir: string, head: string, tail: string, pat: string, rep: string)
    requires head == "/mod" && tail == "el.pkl" && pat == ".pkl" && rep == "-metrics.json"
    requires ReplaceAll(dir, pat, rep) == dir
    ensures ReplaceAll(dir + (head + tail), pat, rep) == dir + (head + "el-metrics.json")
  {
    ReplaceConcat(dir, head + tail, pat, rep);
    ReplaceModelFileName(head, tail, pat, rep);
  }

  /** The pieces the model file name is split into, put back together. */
  lemma ModelNamePieces()
    ensures "/mod" + "el.pkl" == "/model.pkl" && "/mod" + "el-metrics.json" == "/model-metrics.json"
  {
  }

  /** A remote registry directory keeps its text when ".pkl" is replaced; `mid` is the literal "/models/". */
  lemma {:induction false} RemoteDirKeepsText(scheme: string, bucket: string, mid: string, version: string)
    requires scheme == S3Scheme || scheme == GcsScheme
    requires mid == "/models/" && !Occurs(bucket, ".pkl") && !Occurs(version, ".pkl")
    ensures ReplaceAll(scheme + bucket + mid + version, ".pkl", "-metrics.json") == scheme + bucket + mid + version
  {
    var pat, rep := ".pkl", "-metrics.json";
    ReplaceConcat(scheme + bucket + mid, version, pat, rep);
    ReplaceConcat(scheme + bucket, mid, pat, rep);
    ReplaceConcat(scheme, bucket, pat, rep);
    NoCharNoOccur(scheme, pat, 0);
    ReplaceAbsent(scheme, pat, rep);
    ReplaceAbsent(bucket, pat, rep);
    NoCharNoOccur(mid, pat, 0);
    ReplaceAbsent(mid, pat, rep);
    ReplaceAbsent(version, pat, rep);
  }

  /** A local registry directory keeps its text when ".pkl" is replaced; `sep` is the literal "/". */
  lemma {:induction false} LocalDirKeepsText(base: string, sep: string, version: string)
    requires sep == "/" && !Occurs(base, ".pkl") && !Occurs(version, ".pkl")
    ensures ReplaceAll(base + sep + version, ".pkl", "-metrics.json") == base + sep + version
  {
    var pat, rep := ".pkl", "-metrics.json";
    ReplaceConcat(base + sep, version, pat, rep);
    ReplaceConcat(base, sep, pat, rep);
    ReplaceAbsent(base, pat, rep);
    NoCharNoOccur(sep, pat, 0);
    ReplaceAbsent(sep, pat, rep);
    ReplaceAbsent(version, pat, rep);
  }

  /** The registry directory spelled out per registry type. */
  lemma RegistryDirForm(version: string, env: Env)
    ensures RegistryType(env) == "s3" ==> RegistryDir(version, env) == S3Scheme + S3Bucket(env) + "/models/" + version
    ensures RegistryType(env) == "gcs" ==> RegistryDir(version, env) == GcsScheme + GcsBucket(env) + "/models/" + version
    ensures RegistryType(env) !in {"s3", "gcs"} ==> RegistryDir(version, env) == BasePath(env) + "/" + version
  {
    var dir := RegistryDir(version, env);
    if RegistryType(env) == "s3" {
      SuffixCancel(dir, S3Scheme + S3Bucket(env) + "/models/" + version, "/model.pkl");
    } else if RegistryType(env) == "gcs" {
      SuffixCancel(dir, GcsScheme + GcsBucket(env) + "/models/" + version, "/model.pkl");
    } else {
      SuffixCancel(dir, BasePath(env) + "/" + version, "/model.pkl");
    }
  }

  /**
   * The registry directory keeps its text when ".pkl" is replaced, whenever
   * neither the version nor the configured bucket or base path contains it.
   */
  lemma RegistryDirKeepsText(version: string, env: Env)
    requires !Occurs(version, ".pkl")
    requires RegistryType(env) == "s3" ==> !Occurs(S3Bucket(env), ".pkl")
    requires RegistryType(env) == "gcs" ==> !Occurs(GcsBucket(env), ".pkl")
    requires RegistryType(env) !in {"s3", "gcs"} ==> !Occurs(BasePath(env), ".pkl")
    ensures ReplaceAll(RegistryDir(version, env), ".pkl", "-metrics.json") == RegistryDir(version, env)
  {
    RegistryDirForm(version, env);
    if RegistryType(env) == "s3" {
      RemoteDirKeepsText(S3Scheme, S3Bucket(env), "/models/", version);
    } else if RegistryType(env) == "gcs" {
      RemoteDirKeepsText(GcsScheme, GcsBucket(env), "/models/", version);
    } else {
      LocalDirKeepsText(BasePath(env), "/", version);
    }
  }

  /**
   * The metrics sidecar's registry path (`.pkl` replaced by `-metrics.json`)
   * sits next to the model as "model-metrics.json", whenever neither the
   * version nor the configured bucket or base path contains ".pkl".
   */
  lemma MetricsRegistryPath(version: string, env: Env)
    requires !Occurs(version, ".pkl")
    requires RegistryType(env) == "s3" ==> !Occurs(S3Bucket(env), ".pkl")
    requires RegistryType(env) == "gcs" ==> !Occurs(GcsBucket(env), ".pkl")
    requires RegistryType(env) !in {"s3", "gcs"} ==> !Occurs(BasePath(env), ".pkl")
    ensures ReplaceAll(RegistryPath(version, env), ".pkl", "-metrics.json") ==
              RegistryDir(version, env) + "/model-metrics.json"
  {
    RegistryDirKeepsText(version, env);
    MetricsNextToModel(RegistryDir(version, env), "/mod", "el.pkl", ".pkl", "-metrics.json");
    ModelNamePieces();
  }
}
