/**
 * The artifact store behind `upload_to_registry` and `download_from_registry`:
 * a local filesystem (files and directories) and two object stores keyed by
 * (bucket, key). `StoreState` is the whole store as a value and the
 * `...Effect` functions say what each operation does to it; the `Store` class
 * holds the same state in fields and its methods update them in place.
 */
module ArtifactStore {
  import opened Wrappers
  import opened Text
  import opened Artifacts
  import opened Registry

  /** A successful write, in the order the store performed it. */
  datatype Write = LocalWrite(path: string) | RemoteWrite(backend: Backend, bucket: string, key: string)

  /** The exceptions a store operation can raise. */
  datatype StoreError =
    | NotFound(path: string)                                 // FileNotFoundError
    | SameFile(path: string)                                 // shutil.SameFileError
    | NoKeyInPath(remainder: string)                         // ValueError from unpacking the split
    | Unavailable(backend: Backend)                          // credentials or connectivity
    | NoSuchObject(backend: Backend, bucket: string, key: string)

  datatype StoreState = StoreState(
    files: map<string, Blob>,
    dirs: set<string>,
    s3: map<(string, string), Blob>,
    gcs: map<(string, string), Blob>,
    s3Online: bool,
    gcsOnline: bool,
    log: seq<Write>)

  /** What an operation returned, and the store it left behind. */
  datatype Effect = Effect(outcome: Result<(), StoreError>, after: StoreState)

  predicate Online(st: StoreState, b: Backend)
    requires b != Local
  {
    if b == S3 then st.s3Online else st.gcsOnline
  }

  function Bucket(st: StoreState, b: Backend): map<(string, string), Blob>
    requires b != Local
  {
    if b == S3 then st.s3 else st.gcs
  }

  /** The location a path names: a local file, or a (bucket, key) in the backend its prefix selects. */
  function Target(path: string): Option<Write> {
    var b := BackendOf(path);
    if b == Local then Some(LocalWrite(path))
    else match RemoteLocation(path, SchemeOf(b))
      case None => None
      case Some((bucket, key)) => Some(RemoteWrite(b, bucket, key))
  }

  /** What a location holds. */
  function Lookup(st: StoreState, w: Write): Option<Blob> {
    match w
    case LocalWrite(p) => if p in st.files then Some(st.files[p]) else None
    case RemoteWrite(b, bucket, key) =>
      if b == Local then None
      else if (bucket, key) in Bucket(st, b) then Some(Bucket(st, b)[(bucket, key)]) else None
  }

  /** `os.makedirs(d, exist_ok=True)`: an empty name raises; an existing directory does not. */
  function MakeDirsEffect(st: StoreState, d: string): (e: Effect)
    ensures e.outcome.Success? <==> d != ""
    ensures e.after == st.(dirs := e.after.dirs) && st.dirs <= e.after.dirs
    ensures e.outcome.Success? ==> d in e.after.dirs
  {
    if d == "" then Effect(Failure(NotFound(d)), st)
    else
      assert d[..|d|] == d;
      Effect(Success(()), st.(dirs := st.dirs + Ancestors(d)))
  }

  /** `exist_ok=True`: creating the same directories a second time changes nothing and succeeds alike. */
  lemma MakeDirsIdempotent(st: StoreState, d: string)
    ensures MakeDirsEffect(MakeDirsEffect(st, d).after, d) == MakeDirsEffect(st, d)
  {
  }

  /** A file can be created at `p`: the name is not empty and its directory is the working directory or exists. */
  predicate CanCreate(st: StoreState, p: string) {
    p != "" && (Dirname(p) == "" || Dirname(p) in st.dirs)
  }

  /** `open(p, 'w')` followed by a complete write of `blob`; an empty name raises. */
  function WriteEffect(st: StoreState, p: string, blob: Blob): (e: Effect)
    ensures e.outcome.Success? <==> CanCreate(st, p)
    ensures e.outcome.Success? ==>
              e.after == st.(files := st.files[p := blob], log := st.log + [LocalWrite(p)])
    ensures e.outcome.Failure? ==> e.after == st
  {
    if !CanCreate(st, p) then Effect(Failure(NotFound(p)), st)
    else Effect(Success(()), st.(files := st.files[p := blob], log := st.log + [LocalWrite(p)]))
  }

  /** `shutil.copy2(src, dst)` between two local paths. */
  function CopyEffect(st: StoreState, src: string, dst: string): (e: Effect)
    ensures e.outcome.Success? <==> src in st.files && src != dst && CanCreate(st, dst)
    ensures e.outcome.Success? ==>
              e.after == st.(files := st.files[dst := st.files[src]], log := st.log + [LocalWrite(dst)])
    ensures e.outcome.Failure? ==> e.after == st
  {
    if src !in st.files then Effect(Failure(NotFound(src)), st)
    else if src == dst then Effect(Failure(SameFile(src)), st)
    else WriteEffect(st, dst, st.files[src])
  }

  /** The local branch of `upload_to_registry`: create the target's directory, then copy. */
  function LocalUploadEffect(st: StoreState, src: string, dst: string): (e: Effect)
    ensures e.outcome.Success? <==> Dirname(dst) != "" && src in st.files && src != dst
    ensures e.outcome.Success? ==>
              e.after.files == st.files[dst := st.files[src]] && e.after.log == st.log + [LocalWrite(dst)]
    ensures e.outcome.Failure? ==> e.after.files == st.files && e.after.log == st.log
    ensures e.after.s3 == st.s3 && e.after.gcs == st.gcs
    ensures e.after.s3Online == st.s3Online && e.after.gcsOnline == st.gcsOnline
  {
    var made := MakeDirsEffect(st, Dirname(dst));
    if made.outcome.Failure? then made
    else CopyEffect(made.after, src, dst)
  }

  /** The two remote branches of `upload_to_registry`. */
  function RemoteUploadEffect(st: StoreState, src: string, dst: string, b: Backend): (e: Effect)
    requires b != Local
    ensures e.outcome.Success? <==>
              RemoteLocation(dst, SchemeOf(b)).Some? && src in st.files && Online(st, b)
    ensures e.outcome.Success? ==>
              var (bucket, key) := RemoteLocation(dst, SchemeOf(b)).value;
              Bucket(e.after, b) == Bucket(st, b)[(bucket, key) := st.files[src]] &&
              e.after.log == st.log + [RemoteWrite(b, bucket, key)]
    ensures e.outcome.Failure? ==> e.after == st
    ensures e.after.files == st.files && e.after.dirs == st.dirs
    ensures b == S3 ==> e.after.gcs == st.gcs
    ensures b == Gcs ==> e.after.s3 == st.s3
    ensures e.after.s3Online == st.s3Online && e.after.gcsOnline == st.gcsOnline
  {
    match RemoteLocation(dst, SchemeOf(b))
    case None => Effect(Failure(NoKeyInPath(ReplaceAll(dst, SchemeOf(b), ""))), st)
    case Some((bucket, key)) =>
      if src !in st.files then Effect(Failure(NotFound(src)), st)
      else if !Online(st, b) then Effect(Failure(Unavailable(b)), st)
      else
        var log' := st.log + [RemoteWrite(b, bucket, key)];
        if b == S3 then Effect(Success(()), st.(s3 := st.s3[(bucket, key) := st.files[src]], log := log'))
        else Effect(Success(()), st.(gcs := st.gcs[(bucket, key) := st.files[src]], log := log'))
  }

  /**
   * `upload_to_registry(src, dst)`. The prefix of `dst` alone picks the
   * backend, and every other path is a local copy. A successful upload puts the
   * contents of the local file at exactly the location `dst` names and
   * changes no other location; a failed one changes no file or object (a
   * local upload may still have created the target's directories).
   */
  function UploadEffect(st: StoreState, src: string, dst: string): (e: Effect)
    ensures e.outcome.Success? ==>
              src in st.files && Target(dst).Some? &&
              Lookup(e.after, Target(dst).value) == Some(st.files[src]) &&
              e.after.log == st.log + [Target(dst).value]
    ensures e.outcome.Success? ==>
              forall w :: w != Target(dst).value ==> Lookup(e.after, w) == Lookup(st, w)
    ensures e.outcome.Failure? ==>
              e.after.files == st.files && e.after.s3 == st.s3 && e.after.gcs == st.gcs && e.after.log == st.log
    ensures e.after.s3Online == st.s3Online && e.after.gcsOnline == st.gcsOnline
    ensures e.outcome.Success? && BackendOf(dst) != Local ==> Online(st, BackendOf(dst))
  {
    var b := BackendOf(dst);
    if b == Local then LocalUploadEffect(st, src, dst)
    else RemoteUploadEffect(st, src, dst, b)
  }

  /**
   * `download_from_registry(src, dst)`: copies what the location `src` names
   * into the local file `dst`. It never creates a directory and never
   * touches a bucket; a failed download changes nothing.
   */
  function DownloadEffect(st: StoreState, src: string, dst: string): (e: Effect)
    ensures e.after.dirs == st.dirs && e.after.s3 == st.s3 && e.after.gcs == st.gcs
    ensures e.outcome.Failure? ==> e.after == st
    ensures e.outcome.Success? ==>
              Target(src).Some? && Lookup(st, Target(src).value).Some? && CanCreate(st, dst) &&
              e.after.files == st.files[dst := Lookup(st, Target(src).value).value] &&
              e.after.log == st.log + [LocalWrite(dst)]
    ensures BackendOf(src) != Local ==>
              (e.outcome.Success? <==>
                 Target(src).Some? && Online(st, BackendOf(src)) && Lookup(st, Target(src).value).Some? &&
                 CanCreate(st, dst))
    ensures BackendOf(src) == Local ==>
              (e.outcome.Success? <==> src in st.files && src != dst && CanCreate(st, dst))
  {
    var b := BackendOf(src);
    if b == Local then CopyEffect(st, src, dst)
    else
      match RemoteLocation(src, SchemeOf(b))
      case None => Effect(Failure(NoKeyInPath(ReplaceAll(src, SchemeOf(b), ""))), st)
      case Some((bucket, key)) =>
        if !Online(st, b) then Effect(Failure(Unavailable(b)), st)
        else if (bucket, key) !in Bucket(st, b) then Effect(Failure(NoSuchObject(b, bucket, key)), st)
        else WriteEffect(st, dst, Bucket(st, b)[(bucket, key)])
  }

  /**
   * Two paths whose last characters differ, and are not characters of either
   * scheme, name different locations: `str.replace` cannot remove a last
   * character the scheme does not contain.
   */
  lemma DistinctTargets(p: string, q: string)
    requires Target(p).Some? && Target(q).Some?
    requires p != [] && q != [] && p[|p| - 1] != q[|q| - 1]
    requires p[|p| - 1] !in S3Scheme && p[|p| - 1] !in GcsScheme
    requires q[|q| - 1] !in S3Scheme && q[|q| - 1] !in GcsScheme
    ensures Target(p) != Target(q)
  {
    var b := BackendOf(p);
    if b != Local && BackendOf(q) == b {
      var scheme := SchemeOf(b);
      LastCharKept(p, scheme);
      LastCharKept(q, scheme);
    }
  }

  /**
   * Two successful uploads in a row, to different locations, where the first
   * does not overwrite the second's source: each location then holds the
   * contents of the file uploaded to it.
   */
  lemma UploadsToDistinctTargets(st: StoreState, src1: string, dst1: string, src2: string, dst2: string)
    requires UploadEffect(st, src1, dst1).outcome.Success?
    requires UploadEffect(UploadEffect(st, src1, dst1).after, src2, dst2).outcome.Success?
    requires Target(dst1) != Some(LocalWrite(src2)) && Target(dst1) != Target(dst2)
    ensures var after := UploadEffect(UploadEffect(st, src1, dst1).after, src2, dst2).after;
            src1 in st.files && src2 in st.files &&
            Lookup(after, Target(dst1).value) == Some(st.files[src1]) &&
            Lookup(after, Target(dst2).value) == Some(st.files[src2])
  {
    var first := UploadEffect(st, src1, dst1);
    assert Lookup(first.after, LocalWrite(src2)) == Lookup(st, LocalWrite(src2));
    var second := UploadEffect(first.after, src2, dst2);
    assert Lookup(second.after, Target(dst1).value) == Lookup(first.after, Target(dst1).value);
  }

  /**
   * Download after upload restores identical contents, on every backend:
   * once `src` has been uploaded to `reg`, downloading `reg` into a local
   * file whose directory exists (and which, for a local registry, is not the
   * registry file itself) yields the uploaded contents.
   */
  lemma UploadThenDownload(st: StoreState, src: string, reg: string, dst: string)
    requires UploadEffect(st, src, reg).outcome.Success?
    requires CanCreate(UploadEffect(st, src, reg).after, dst)
    requires BackendOf(reg) == Local ==> dst != reg
    ensures var d := DownloadEffect(UploadEffect(st, src, reg).after, reg, dst);
            d.outcome.Success? && d.after.files[dst] == st.files[src]
  {
    var up := UploadEffect(st, src, reg);
    var w := Target(reg).value;
    assert Lookup(up.after, w) == Some(st.files[src]);
    if BackendOf(reg) != Local {
      assert Online(up.after, BackendOf(reg));
    }
  }

  /**
   * The store as the running program sees it: the local filesystem and the
   * two remote backends, updated in place. `log` is ghost: it records the
   * order of the writes so that contracts can speak about it.
   */
  class Store {
    var files: map<string, Blob>
    var dirs: set<string>
    var s3: map<(string, string), Blob>
    var gcs: map<(string, string), Blob>
    const s3Online: bool
    const gcsOnline: bool
    ghost var log: seq<Write>

    ghost function State(): StoreState
      reads this
    {
      StoreState(files, dirs, s3, gcs, s3Online, gcsOnline, log)
    }

    constructor (st: StoreState)
      ensures State() == st
    {
      files, dirs, s3, gcs := st.files, st.dirs, st.s3, st.gcs;
      s3Online, gcsOnline := st.s3Online, st.gcsOnline;
      log := st.log;
    }

    method MakeDirs(d: string) returns (r: Result<(), StoreError>)
      modifies this
      ensures Effect(r, State()) == MakeDirsEffect(old(State()), d)
    {
      if d == "" {
        return Failure(NotFound(d));
      }
      dirs := dirs + Ancestors(d);
      r := Success(());
    }

    method WriteFile(p: string, blob: Blob) returns (r: Result<(), StoreError>)
      modifies this
      ensures Effect(r, State()) == WriteEffect(old(State()), p, blob)
    {
      var parent := Dirname(p);
      if p == "" || (parent != "" && parent !in dirs) {
        return Failure(NotFound(p));
      }
      files := files[p := blob];
      log := log + [LocalWrite(p)];
      r := Success(());
    }

    method Copy(src: string, dst: string) returns (r: Result<(), StoreError>)
      modifies this
      ensures Effect(r, State()) == CopyEffect(old(State()), src, dst)
    {
      if src !in files {
        return Failure(NotFound(src));
      }
      if src == dst {
        return Failure(SameFile(src));
      }
      r := WriteFile(dst, files[src]);
    }

    method Upload(src: string, dst: string) returns (r: Result<(), StoreError>)
      modifies this
      ensures Effect(r, State()) == UploadEffect(old(State()), src, dst)
    {
      var b := BackendOf(dst);
      if b == Local {
        r := MakeDirs(Dirname(dst));
        if r.Success? {
          r := Copy(src, dst);
        }
        return;
      }
      var scheme := SchemeOf(b);
      var location := RemoteLocation(dst, scheme);
      if location.None? {
        return Failure(NoKeyInPath(ReplaceAll(dst, scheme, "")));
      }
      var (bucket, key) := location.value;
      if src !in files {
        return Failure(NotFound(src));
      }
      if b == S3 {
        if !s3Online {
          return Failure(Unavailable(b));
        }
        s3 := s3[(bucket, key) := files[src]];
      } else {
        if !gcsOnline {
          return Failure(Unavailable(b));
        }
        gcs := gcs[(bucket, key) := files[src]];
      }
      log := log + [RemoteWrite(b, bucket, key)];
      r := Success(());
    }

    method Download(src: string, dst: string) returns (r: Result<(), StoreError>)
      modifies this
      ensures Effect(r, State()) == DownloadEffect(old(State()), src, dst)
    {
      var b := BackendOf(src);
      if b == Local {
        r := Copy(src, dst);
        return;
      }
      var scheme := SchemeOf(b);
      var location := RemoteLocation(src, scheme);
      if location.None? {
        return Failure(NoKeyInPath(ReplaceAll(src, scheme, "")));
      }
      var (bucket, key) := location.value;
      var online := if b == S3 then s3Online else gcsOnline;
      var objects := if b == S3 then s3 else gcs;
      if !online {
        return Failure(Unavailable(b));
      }
      if (bucket, key) !in objects {
        return Failure(NoSuchObject(b, bucket, key));
      }
      r := WriteFile(dst, objects[(bucket, key)]);
    }
  }
}
