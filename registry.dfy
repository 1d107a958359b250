/** The per-repository dump of registry.go: pick the first tag, store the
    manifest verbatim, then fetch the config blob and the layer blobs in
    manifest order, storing each only when its SHA-256 matches the digest
    it was requested by. The network (each request through
    `Client.MakeRequest` and the read of its body), JSON decoding and
    SHA-256 are oracles carried by a `Remote`; the filesystem is a `Disk`
    whose files the dump updates in place. */
module Registry {
  import opened Common
  import Hex
  import Client

  const ConfigMediaType: string := "application/vnd.docker.container.image.v1+json"
  const LayerMediaType: string := "application/vnd.docker.image.rootfs.diff.tar.gzip"
  const ManifestFileName: string := "manifest.json"
  const ConfigPrefix: string := "config_"
  const LayerPrefix: string := "layer_"
  const DigestPrefix: string := "sha256:"

  // ---------------------------------------------------------------------
  // Data

  datatype Descriptor = Descriptor(digest: string, mediaType: string)

  /** The two manifest fields the dump reads. */
  datatype Manifest = Manifest(config: Descriptor, layers: seq<Descriptor>)

  /** The registry endpoints the dump requests (`<url>:<port>/v2/...`). */
  datatype Request =
    | Catalog
    | Tags(repo: string)
    | ManifestReq(repo: string, tag: string)
    | Blob(repo: string, digest: string)

  /** What one request yields: the whole body, the error `MakeRequest`
      returned, or a failure while reading the body. */
  datatype Fetch = Body(bytes: seq<byte>) | Failed(error: Client.RequestError) | ReadFailed

  /** The registry as the dump sees it. */
  datatype Remote = Remote(
    fetch: Request -> Fetch,
    decodeCatalog: seq<byte> -> Option<seq<string>>,
    decodeTags: seq<byte> -> Option<seq<string>>,
    decodeManifest: seq<byte> -> Option<Manifest>,
    sha256: Hex.Sha256)

  /** `filepath.Join(outputDir, repo, name)`. */
  datatype Path = Path(dir: string, repo: string, name: string)

  type Files = map<Path, seq<byte>>

  datatype FetchError =
    | RequestFailed(error: Client.RequestError)
    | ReadFailed
    | StoreFailed
    | IntegrityMismatch(expected: string, calculated: string)

  datatype DumpError =
    | CreateDirFailed
    | TagsRequestFailed(error: Client.RequestError)
    | TagsUndecodable
    | NoTags(repo: string)
    | ManifestFailed(cause: FetchError)
    | ManifestUnparsable

  datatype ListError = CatalogRequestFailed(error: Client.RequestError) | CatalogUndecodable

  // ---------------------------------------------------------------------
  // File names (registry.go:89, 112-118, 130-136)

  /** `strings.ReplaceAll(digest, ":", "_")`. */
  function SafeDigest(digest: string): (safe: string)
    ensures |safe| == |digest|
    ensures forall i :: 0 <= i < |digest| ==> safe[i] == if digest[i] == ':' then '_' else digest[i]
    ensures forall i :: 0 <= i < |safe| ==> safe[i] != ':'
  {
    if digest == [] then []
    else [if digest[0] == ':' then '_' else digest[0]] + SafeDigest(digest[1..])
  }

  function ConfigExt(mediaType: string): string {
    if mediaType == ConfigMediaType then ".json" else ".bin"
  }

  function LayerExt(mediaType: string): string {
    if mediaType == LayerMediaType then ".tar.gz" else ".bin"
  }

  function ConfigFileName(config: Descriptor): string {
    ConfigPrefix + SafeDigest(config.digest) + ConfigExt(config.mediaType)
  }

  function LayerFileName(layer: Descriptor): string {
    LayerPrefix + SafeDigest(layer.digest) + LayerExt(layer.mediaType)
  }

  function ManifestPath(dir: string, repo: string): Path {
    Path(dir, repo, ManifestFileName)
  }

  /** The extension follows the media type; the sanitised digest between
      prefix and extension has no ':'; no blob file is called
      `manifest.json`, and a config file never shares a layer's name. */
  lemma FileNames(config: Descriptor, layer: Descriptor)
    ensures ConfigExt(config.mediaType) == ".json" <==> config.mediaType == ConfigMediaType
    ensures ConfigExt(config.mediaType) != ".json" ==> ConfigExt(config.mediaType) == ".bin"
    ensures LayerExt(layer.mediaType) == ".tar.gz" <==> layer.mediaType == LayerMediaType
    ensures LayerExt(layer.mediaType) != ".tar.gz" ==> LayerExt(layer.mediaType) == ".bin"
    ensures var name := ConfigFileName(config);
      && name[..|ConfigPrefix|] == ConfigPrefix
      && name[|ConfigPrefix|..|ConfigPrefix| + |config.digest|] == SafeDigest(config.digest)
      && name != ManifestFileName
    ensures var name := LayerFileName(layer);
      && name[..|LayerPrefix|] == LayerPrefix
      && name[|LayerPrefix|..|LayerPrefix| + |layer.digest|] == SafeDigest(layer.digest)
      && name != ManifestFileName
    ensures ConfigFileName(config) != LayerFileName(layer)
  {
    var c, l := ConfigFileName(config), LayerFileName(layer);
    assert c[..|ConfigPrefix|] == ConfigPrefix;
    assert l[..|LayerPrefix|] == LayerPrefix;
    assert c[|ConfigPrefix|..|ConfigPrefix| + |config.digest|] == SafeDigest(config.digest);
    assert l[|LayerPrefix|..|LayerPrefix| + |layer.digest|] == SafeDigest(layer.digest);
    assert c[0] == 'c' && l[0] == 'l' && ManifestFileName[0] == 'm';
  }

  // ---------------------------------------------------------------------
  // The integrity gate (registry.go:179-183)

  function ComputedDigest(sha256: Hex.Sha256, body: seq<byte>): string {
    DigestPrefix + Hex.Encode(sha256(body))
  }

  /** A body passes the gate exactly when the expected digest is "sha256:"
      followed by the lowercase hex of the body's hash: an upper-case or
      otherwise different spelling of the same hash is refused. */
  lemma DigestCheck(sha256: Hex.Sha256, body: seq<byte>, expected: string)
    ensures ComputedDigest(sha256, body) == expected <==>
      && |expected| == |DigestPrefix| + 64
      && expected[..|DigestPrefix|] == DigestPrefix
      && Hex.Decode(expected[|DigestPrefix|..]) == Some(sha256(body))
  {
    var computed := ComputedDigest(sha256, body);
    assert computed[|DigestPrefix|..] == Hex.Encode(sha256(body));
    if computed == expected {
      Hex.EncodeDecode(sha256(body));
    }
    if |expected| >= |DigestPrefix| && expected[..|DigestPrefix|] == DigestPrefix {
      var hex := expected[|DigestPrefix|..];
      if Hex.Decode(hex) == Some(sha256(body)) {
        Hex.DecodeSomeIsEncoding(hex);
        assert expected == expected[..|DigestPrefix|] + hex;
      }
    }
  }

  // ---------------------------------------------------------------------
  // getAndStoreResponse and getAndStoreBlob (registry.go:148-190)

  datatype Stored = Stored(files: Files, result: Result<seq<byte>, FetchError>)

  /** The body is stored as received and also returned. */
  function GetAndStoreResponseSpec(remote: Remote, storeOk: Path -> bool, files: Files,
                                   req: Request, path: Path): (s: Stored)
    ensures s.result.Ok? <==> remote.fetch(req).Body? && storeOk(path)
    ensures s.result.Ok? ==> s.result.value == remote.fetch(req).bytes && s.files == files[path := s.result.value]
    ensures s.result.Err? ==> s.files == files
    ensures remote.fetch(req).Failed? ==> s.result == Err(RequestFailed(remote.fetch(req).error))
  {
    match remote.fetch(req)
    case Failed(e) => Stored(files, Err(RequestFailed(e)))
    case ReadFailed => Stored(files, Err(FetchError.ReadFailed))
    case Body(body) =>
      if storeOk(path) then Stored(files[path := body], Ok(body)) else Stored(files, Err(StoreFailed))
  }

  /** A blob reaches the disk only when its computed digest equals the
      expected one; on a mismatch nothing is written. */
  function GetAndStoreBlobSpec(remote: Remote, storeOk: Path -> bool, files: Files,
                               req: Request, path: Path, expected: string): (s: Stored)
    ensures s.result.Ok? <==>
      && remote.fetch(req).Body?
      && ComputedDigest(remote.sha256, remote.fetch(req).bytes) == expected
      && storeOk(path)
    ensures s.result.Ok? ==> s.result.value == remote.fetch(req).bytes && s.files == files[path := s.result.value]
    ensures s.result.Err? ==> s.files == files
    ensures remote.fetch(req).Body? && ComputedDigest(remote.sha256, remote.fetch(req).bytes) != expected ==>
      s.result == Err(IntegrityMismatch(expected, ComputedDigest(remote.sha256, remote.fetch(req).bytes)))
  {
    match remote.fetch(req)
    case Failed(e) => Stored(files, Err(RequestFailed(e)))
    case ReadFailed => Stored(files, Err(FetchError.ReadFailed))
    case Body(body) =>
      var calculated := ComputedDigest(remote.sha256, body);
      if calculated != expected then Stored(files, Err(IntegrityMismatch(expected, calculated)))
      else if storeOk(path) then Stored(files[path := body], Ok(body))
      else Stored(files, Err(StoreFailed))
  }

  /** The output directory. `createOk` and `storeOk` say whether
      `utils.CreateDir` and `utils.StoreResponse` succeed. */
  class Disk {
    const createOk: string -> bool
    const storeOk: Path -> bool
    var files: Files

    constructor (createOk: string -> bool, storeOk: Path -> bool, files: Files)
      ensures this.createOk == createOk && this.storeOk == storeOk && this.files == files
    {
      this.createOk := createOk;
      this.storeOk := storeOk;
      this.files := files;
    }

    method StoreResponse(path: Path, data: seq<byte>) returns (ok: bool)
      modifies this
      ensures ok == storeOk(path)
      ensures files == if ok then old(files)[path := data] else old(files)
    {
      ok := storeOk(path);
      if ok {
        files := files[path := data];
      }
    }
  }

  method GetAndStoreResponse(remote: Remote, disk: Disk, req: Request, path: Path)
    returns (r: Result<seq<byte>, FetchError>)
    modifies disk
    ensures Stored(disk.files, r) == GetAndStoreResponseSpec(remote, disk.storeOk, old(disk.files), req, path)
  {
    match remote.fetch(req) {
      case Failed(e) => return Err(RequestFailed(e));
      case ReadFailed => return Err(FetchError.ReadFailed);
      case Body(body) =>
        var ok := disk.StoreResponse(path, body);
        if !ok {
          return Err(StoreFailed);
        }
        return Ok(body);
    }
  }

  method GetAndStoreBlob(remote: Remote, disk: Disk, req: Request, path: Path, expected: string)
    returns (r: Result<seq<byte>, FetchError>)
    modifies disk
    ensures Stored(disk.files, r) == GetAndStoreBlobSpec(remote, disk.storeOk, old(disk.files), req, path, expected)
  {
    match remote.fetch(req) {
      case Failed(e) => return Err(RequestFailed(e));
      case ReadFailed => return Err(FetchError.ReadFailed);
      case Body(body) =>
        var calculated := ComputedDigest(remote.sha256, body);
        if calculated != expected {
          return Err(IntegrityMismatch(expected, calculated));
        }
        var ok := disk.StoreResponse(path, body);
        if !ok {
          return Err(StoreFailed);
        }
        return Ok(body);
    }
  }

  // ---------------------------------------------------------------------
  // The blob plan (registry.go:109-143)

  /** One blob to fetch: the digest it must match, its request, its file. */
  datatype Job = Job(digest: string, request: Request, path: Path)

  function ConfigJob(dir: string, repo: string, config: Descriptor): Job {
    Job(config.digest, Blob(repo, config.digest), Path(dir, repo, ConfigFileName(config)))
  }

  function LayerJob(dir: string, repo: string, layer: Descriptor): Job {
    Job(layer.digest, Blob(repo, layer.digest), Path(dir, repo, LayerFileName(layer)))
  }

  /** The config blob, unless its digest is empty. */
  function ConfigJobs(dir: string, repo: string, config: Descriptor): seq<Job> {
    if config.digest != "" then [ConfigJob(dir, repo, config)] else []
  }

  /** The layers in manifest order, each skipped when its digest is empty. */
  function LayerJobs(dir: string, repo: string, layers: seq<Descriptor>): seq<Job> {
    if layers == [] then []
    else
      var last := layers[|layers| - 1];
      LayerJobs(dir, repo, layers[..|layers| - 1]) + if last.digest != "" then [LayerJob(dir, repo, last)] else []
  }

  function Plan(dir: string, repo: string, m: Manifest): seq<Job> {
    ConfigJobs(dir, repo, m.config) + LayerJobs(dir, repo, m.layers)
  }

  /** Layer order is kept: the jobs of consecutive runs of layers are the
      consecutive runs of jobs. */
  lemma {:induction false} LayerJobsAppend(dir: string, repo: string, a: seq<Descriptor>, b: seq<Descriptor>)
    ensures LayerJobs(dir, repo, a + b) == LayerJobs(dir, repo, a) + LayerJobs(dir, repo, b)
    decreases |b|
  {
    if b == [] {
      assert a + b == a;
    } else {
      var n := |b| - 1;
      LayerJobsAppend(dir, repo, a, b[..n]);
      assert (a + b)[..|a + b| - 1] == a + b[..n];
      assert (a + b)[|a + b| - 1] == b[n];
    }
  }

  /** Each layer job comes from a layer with a digest. */
  lemma {:induction false} LayerJobsFromLayers(dir: string, repo: string, layers: seq<Descriptor>)
    ensures var jobs := LayerJobs(dir, repo, layers);
      && |jobs| <= |layers|
      && forall k :: 0 <= k < |jobs| ==>
           exists i :: 0 <= i < |layers| && layers[i].digest != "" && jobs[k] == LayerJob(dir, repo, layers[i])
  {
    if layers != [] {
      var n := |layers| - 1;
      var init := layers[..n];
      LayerJobsFromLayers(dir, repo, init);
      var jobs := LayerJobs(dir, repo, layers);
      var prev := LayerJobs(dir, repo, init);
      forall k | 0 <= k < |jobs|
        ensures exists i :: 0 <= i < |layers| && layers[i].digest != "" && jobs[k] == LayerJob(dir, repo, layers[i])
      {
        if k < |prev| {
          var i :| 0 <= i < |init| && init[i].digest != "" && prev[k] == LayerJob(dir, repo, init[i]);
          assert layers[i] == init[i];
        } else {
          assert jobs[k] == LayerJob(dir, repo, layers[n]);
        }
      }
    }
  }

  /** Each layer with a digest gets a job. */
  lemma {:induction false} LayerJobsComplete(dir: string, repo: string, layers: seq<Descriptor>)
    ensures forall i :: 0 <= i < |layers| && layers[i].digest != "" ==>
      LayerJob(dir, repo, layers[i]) in LayerJobs(dir, repo, layers)
  {
    if layers != [] {
      var n := |layers| - 1;
      var init := layers[..n];
      LayerJobsComplete(dir, repo, init);
      forall i | 0 <= i < |layers| && layers[i].digest != ""
        ensures LayerJob(dir, repo, layers[i]) in LayerJobs(dir, repo, layers)
      {
        if i < n {
          assert layers[i] == init[i];
        }
      }
    }
  }

  /** Every planned job has a non-empty digest, requests the blob of that
      digest, and has a config or layer file under `<dir>/<repo>`. */
  lemma PlanJobs(dir: string, repo: string, m: Manifest)
    ensures var plan := Plan(dir, repo, m);
      forall k :: 0 <= k < |plan| ==>
        && plan[k].digest != ""
        && plan[k].request == Blob(repo, plan[k].digest)
        && plan[k].path.dir == dir && plan[k].path.repo == repo
        && plan[k].path.name != ManifestFileName
  {
    var plan := Plan(dir, repo, m);
    var cfg := ConfigJobs(dir, repo, m.config);
    var layers := LayerJobs(dir, repo, m.layers);
    LayerJobsFromLayers(dir, repo, m.layers);
    forall k | 0 <= k < |plan|
      ensures && plan[k].digest != ""
              && plan[k].request == Blob(repo, plan[k].digest)
              && plan[k].path.dir == dir && plan[k].path.repo == repo
              && plan[k].path.name != ManifestFileName
    {
      if k < |cfg| {
        FileNames(m.config, m.config);
      } else {
        assert plan[k] == layers[k - |cfg|];
        var i :| 0 <= i < |m.layers| && m.layers[i].digest != "" && layers[k - |cfg|] == LayerJob(dir, repo, m.layers[i]);
        FileNames(m.config, m.layers[i]);
      }
    }
  }

  /** The config blob comes first when its digest is set; the layer jobs
      follow it. */
  lemma PlanConfigFirst(dir: string, repo: string, m: Manifest)
    ensures var plan := Plan(dir, repo, m);
      && (m.config.digest != "" <==> |plan| > 0 && plan[0] == ConfigJob(dir, repo, m.config))
      && plan[|ConfigJobs(dir, repo, m.config)|..] == LayerJobs(dir, repo, m.layers)
  {
    var plan := Plan(dir, repo, m);
    var layers := LayerJobs(dir, repo, m.layers);
    LayerJobsFromLayers(dir, repo, m.layers);
    assert plan[|ConfigJobs(dir, repo, m.config)|..] == layers;
  }

  // ---------------------------------------------------------------------
  // Running the plan

  datatype Ran = Ran(requests: seq<Request>, files: Files)

  /** Each job in turn; a failed job is reported and the next one runs. */
  function RunJobs(remote: Remote, storeOk: Path -> bool, files: Files, jobs: seq<Job>): Ran {
    if jobs == [] then Ran([], files)
    else
      var prev := RunJobs(remote, storeOk, files, jobs[..|jobs| - 1]);
      var job := jobs[|jobs| - 1];
      var stored := GetAndStoreBlobSpec(remote, storeOk, prev.files, job.request, job.path, job.digest);
      Ran(prev.requests + [job.request], stored.files)
  }

  lemma RunJobsSnoc(remote: Remote, storeOk: Path -> bool, files: Files, jobs: seq<Job>, job: Job)
    ensures var prev := RunJobs(remote, storeOk, files, jobs);
      RunJobs(remote, storeOk, files, jobs + [job]) ==
        Ran(prev.requests + [job.request],
            GetAndStoreBlobSpec(remote, storeOk, prev.files, job.request, job.path, job.digest).files)
  {
    assert (jobs + [job])[..|jobs|] == jobs;
  }

  /** Failures are isolated: every planned blob is requested, once, in plan
      order, whatever happened to the ones before it. */
  lemma {:induction false} RunJobsRequests(remote: Remote, storeOk: Path -> bool, files: Files, jobs: seq<Job>)
    ensures var r := RunJobs(remote, storeOk, files, jobs).requests;
      |r| == |jobs| && forall k :: 0 <= k < |jobs| ==> r[k] == jobs[k].request
  {
    if jobs != [] {
      RunJobsRequests(remote, storeOk, files, jobs[..|jobs| - 1]);
    }
  }

  /** One blob job touches at most its own file, and only with bytes of
      the expected digest. */
  lemma BlobStep(remote: Remote, storeOk: Path -> bool, prev: Files, job: Job)
    ensures var out := GetAndStoreBlobSpec(remote, storeOk, prev, job.request, job.path, job.digest).files;
      && out.Keys >= prev.Keys
      && (forall p :: p in out && p != job.path ==> p in prev && out[p] == prev[p])
      && (job.path in out && !(job.path in prev && out[job.path] == prev[job.path]) ==>
            ComputedDigest(remote.sha256, out[job.path]) == job.digest)
  {
  }

  /** Only job files are written, and every file written or rewritten holds
      bytes whose computed digest is the digest of a job for that file. */
  lemma {:induction false} RunJobsWrites(remote: Remote, storeOk: Path -> bool, files: Files, jobs: seq<Job>)
    ensures var out := RunJobs(remote, storeOk, files, jobs).files;
      && (forall p :: p in files && (forall k :: 0 <= k < |jobs| ==> jobs[k].path != p) ==>
            p in out && out[p] == files[p])
      && (forall p :: p in out && !(p in files && out[p] == files[p]) ==>
            exists k :: 0 <= k < |jobs| && jobs[k].path == p &&
              ComputedDigest(remote.sha256, out[p]) == jobs[k].digest)
      && out.Keys >= files.Keys
  {
    if jobs != [] {
      var n := |jobs| - 1;
      var init := jobs[..n];
      var job := jobs[n];
      RunJobsWrites(remote, storeOk, files, init);
      var prev := RunJobs(remote, storeOk, files, init).files;
      var out := RunJobs(remote, storeOk, files, jobs).files;
      assert out == GetAndStoreBlobSpec(remote, storeOk, prev, job.request, job.path, job.digest).files;
      BlobStep(remote, storeOk, prev, job);
      forall p | p in out && !(p in files && out[p] == files[p])
        ensures exists k ::
          0 <= k < |jobs| && jobs[k].path == p && ComputedDigest(remote.sha256, out[p]) == jobs[k].digest
      {
        if p == job.path && !(p in prev && out[p] == prev[p]) {
          assert jobs[n].path == p;
        } else {
          assert p in prev && out[p] == prev[p];
          var k :| 0 <= k < |init| && init[k].path == p && ComputedDigest(remote.sha256, prev[p]) == init[k].digest;
          assert jobs[k] == init[k];
        }
      }
      forall p | p in files && (forall k :: 0 <= k < |jobs| ==> jobs[k].path != p)
        ensures p in out && out[p] == files[p]
      {
        assert forall k :: 0 <= k < |init| ==> init[k] == jobs[k];
        assert job.path != p;
      }
    }
  }

  // ---------------------------------------------------------------------
  // DumpRepository (registry.go:62-146)

  datatype Dump = Dump(requests: seq<Request>, files: Files, err: Option<DumpError>)

  /** The tag list, when it can be fetched and decoded. */
  function TagsOf(remote: Remote, repo: string): Option<seq<string>> {
    match remote.fetch(Tags(repo))
    case Body(body) => remote.decodeTags(body)
    case _ => None
  }

  function DumpSpec(remote: Remote, createOk: string -> bool, storeOk: Path -> bool,
                    dir: string, repo: string, files: Files): Dump
  {
    if !createOk(dir) then Dump([], files, Some(CreateDirFailed))
    else match remote.fetch(Tags(repo))
      case Failed(e) => Dump([Tags(repo)], files, Some(TagsRequestFailed(e)))
      case ReadFailed => Dump([Tags(repo)], files, Some(TagsUndecodable))
      case Body(tagsBody) =>
        match remote.decodeTags(tagsBody)
        case None => Dump([Tags(repo)], files, Some(TagsUndecodable))
        case Some(tags) =>
          if tags == [] then Dump([Tags(repo)], files, Some(NoTags(repo)))
          else
            var req := ManifestReq(repo, tags[0]);
            var stored := GetAndStoreResponseSpec(remote, storeOk, files, req, ManifestPath(dir, repo));
            match stored.result
            case Err(e) => Dump([Tags(repo), req], stored.files, Some(ManifestFailed(e)))
            case Ok(body) =>
              match remote.decodeManifest(body)
              case None => Dump([Tags(repo), req], stored.files, Some(ManifestUnparsable))
              case Some(m) =>
                var run := RunJobs(remote, storeOk, stored.files, Plan(dir, repo, m));
                Dump([Tags(repo), req] + run.requests, run.files, None)
  }

  method DumpRepository(remote: Remote, disk: Disk, outputDir: string, repo: string)
    returns (requests: seq<Request>, err: Option<DumpError>)
    modifies disk
    ensures Dump(requests, disk.files, err) ==
      DumpSpec(remote, disk.createOk, disk.storeOk, outputDir, repo, old(disk.files))
  {
    if !disk.createOk(outputDir) {
      return [], Some(CreateDirFailed);
    }
    requests := [Tags(repo)];
    var tags: seq<string>;
    match remote.fetch(Tags(repo)) {
      case Failed(e) => return requests, Some(TagsRequestFailed(e));
      case ReadFailed => return requests, Some(TagsUndecodable);
      case Body(tagsBody) =>
        match remote.decodeTags(tagsBody) {
          case None => return requests, Some(TagsUndecodable);
          case Some(t) => tags := t;
        }
    }
    if |tags| == 0 {
      return requests, Some(NoTags(repo));
    }
    var manifestReq := ManifestReq(repo, tags[0]);
    requests := requests + [manifestReq];
    var manifestBody := GetAndStoreResponse(remote, disk, manifestReq, ManifestPath(outputDir, repo));
    if manifestBody.Err? {
      return requests, Some(ManifestFailed(manifestBody.error));
    }
    var manifest: Manifest;
    match remote.decodeManifest(manifestBody.value) {
      case None => return requests, Some(ManifestUnparsable);
      case Some(m) => manifest := m;
    }
    var blobRequests := DumpBlobs(remote, disk, outputDir, repo, manifest);
    requests := requests + blobRequests;
    err := None;
  }

  /** The config blob, then each layer in manifest order; a failed blob is
      reported and skipped over. */
  method DumpBlobs(remote: Remote, disk: Disk, outputDir: string, repo: string, manifest: Manifest)
    returns (requests: seq<Request>)
    modifies disk
    ensures Ran(requests, disk.files) == RunJobs(remote, disk.storeOk, old(disk.files), Plan(outputDir, repo, manifest))
  {
    requests := [];
    ghost var files0 := disk.files;
    var configJobs := ConfigJobs(outputDir, repo, manifest.config);
    if manifest.config.digest != "" {
      var job := ConfigJob(outputDir, repo, manifest.config);
      requests := requests + [job.request];
      var _ := GetAndStoreBlob(remote, disk, job.request, job.path, job.digest);
      RunJobsSnoc(remote, disk.storeOk, files0, [], job);
    }
    for i := 0 to |manifest.layers|
      invariant var run := RunJobs(remote, disk.storeOk, files0, configJobs + LayerJobs(outputDir, repo, manifest.layers[..i]));
        requests == run.requests && disk.files == run.files
    {
      var layer := manifest.layers[i];
      ghost var before := configJobs + LayerJobs(outputDir, repo, manifest.layers[..i]);
      assert manifest.layers[..i + 1][..i] == manifest.layers[..i];
      if layer.digest != "" {
        var job := LayerJob(outputDir, repo, layer);
        requests := requests + [job.request];
        RunJobsSnoc(remote, disk.storeOk, files0, before, job);
        assert configJobs + LayerJobs(outputDir, repo, manifest.layers[..i + 1]) == before + [job];
        var _ := GetAndStoreBlob(remote, disk, job.request, job.path, job.digest);
      } else {
        assert configJobs + LayerJobs(outputDir, repo, manifest.layers[..i + 1]) == before;
      }
    }
    assert manifest.layers[..|manifest.layers|] == manifest.layers;
  }

  /** An empty tag list stops the dump with `NoTags` before any manifest
      request; otherwise the manifest of the first tag is the second
      request. */
  lemma DumpTagChoice(remote: Remote, createOk: string -> bool, storeOk: Path -> bool,
                      dir: string, repo: string, files: Files)
    ensures var d := DumpSpec(remote, createOk, storeOk, dir, repo, files);
      && (createOk(dir) && TagsOf(remote, repo) == Some([]) ==>
            d == Dump([Tags(repo)], files, Some(NoTags(repo))))
      && (|d.requests| >= 2 <==> createOk(dir) && TagsOf(remote, repo).Some? && TagsOf(remote, repo).value != [])
      && (|d.requests| >= 2 ==> d.requests[..2] == [Tags(repo), ManifestReq(repo, TagsOf(remote, repo).value[0])])
      && (d.requests == [] <==> !createOk(dir))
  {
  }

  /** The dump succeeds exactly when the manifest was stored and parses;
      the blobs' fate does not matter. */
  lemma DumpErrorIffManifestFails(remote: Remote, createOk: string -> bool, storeOk: Path -> bool,
                                  dir: string, repo: string, files: Files)
    ensures var d := DumpSpec(remote, createOk, storeOk, dir, repo, files);
      d.err.None? <==>
        && createOk(dir)
        && TagsOf(remote, repo).Some? && TagsOf(remote, repo).value != []
        && var req := ManifestReq(repo, TagsOf(remote, repo).value[0]);
           && remote.fetch(req).Body?
           && storeOk(ManifestPath(dir, repo))
           && remote.decodeManifest(remote.fetch(req).bytes).Some?
  {
  }

  /** The manifest file holds the manifest body as fetched once it has been
      stored: a parse failure or any blob outcome leaves it in place. */
  lemma ManifestStoredVerbatim(remote: Remote, createOk: string -> bool, storeOk: Path -> bool,
                               dir: string, repo: string, files: Files)
    requires createOk(dir)
    requires TagsOf(remote, repo).Some? && TagsOf(remote, repo).value != []
    requires remote.fetch(ManifestReq(repo, TagsOf(remote, repo).value[0])).Body?
    requires storeOk(ManifestPath(dir, repo))
    ensures var d := DumpSpec(remote, createOk, storeOk, dir, repo, files);
      && ManifestPath(dir, repo) in d.files
      && d.files[ManifestPath(dir, repo)] == remote.fetch(ManifestReq(repo, TagsOf(remote, repo).value[0])).bytes
  {
    var req := ManifestReq(repo, TagsOf(remote, repo).value[0]);
    var stored := GetAndStoreResponseSpec(remote, storeOk, files, req, ManifestPath(dir, repo));
    match remote.decodeManifest(remote.fetch(req).bytes)
    case None =>
    case Some(m) =>
      PlanJobs(dir, repo, m);
      RunJobsWrites(remote, storeOk, stored.files, Plan(dir, repo, m));
  }

  /** After a parsed manifest, the requests are the tags, the manifest, and
      then every planned blob in plan order. */
  lemma DumpRequestsFollowPlan(remote: Remote, createOk: string -> bool, storeOk: Path -> bool,
                               dir: string, repo: string, files: Files, m: Manifest)
    requires createOk(dir)
    requires TagsOf(remote, repo).Some? && TagsOf(remote, repo).value != []
    requires remote.fetch(ManifestReq(repo, TagsOf(remote, repo).value[0])).Body?
    requires storeOk(ManifestPath(dir, repo))
    requires remote.decodeManifest(remote.fetch(ManifestReq(repo, TagsOf(remote, repo).value[0])).bytes) == Some(m)
    ensures var d := DumpSpec(remote, createOk, storeOk, dir, repo, files);
      var plan := Plan(dir, repo, m);
      && d.err == None
      && |d.requests| == 2 + |plan|
      && forall k :: 0 <= k < |plan| ==> d.requests[2 + k] == plan[k].request
  {
    var req := ManifestReq(repo, TagsOf(remote, repo).value[0]);
    var stored := GetAndStoreResponseSpec(remote, storeOk, files, req, ManifestPath(dir, repo));
    RunJobsRequests(remote, storeOk, stored.files, Plan(dir, repo, m));
  }

  /** A dump writes only under `<dir>/<repo>`. */
  lemma DumpWritesOwnDirectory(remote: Remote, createOk: string -> bool, storeOk: Path -> bool,
                               dir: string, repo: string, files: Files)
    ensures var d := DumpSpec(remote, createOk, storeOk, dir, repo, files);
      && d.files.Keys >= files.Keys
      && forall p :: p in d.files && !(p in files && d.files[p] == files[p]) ==> p.dir == dir && p.repo == repo
  {
    var d := DumpSpec(remote, createOk, storeOk, dir, repo, files);
    if createOk(dir) && TagsOf(remote, repo).Some? && TagsOf(remote, repo).value != [] {
      var req := ManifestReq(repo, TagsOf(remote, repo).value[0]);
      var stored := GetAndStoreResponseSpec(remote, storeOk, files, req, ManifestPath(dir, repo));
      if stored.result.Ok? && remote.decodeManifest(stored.result.value).Some? {
        var m := remote.decodeManifest(stored.result.value).value;
        var plan := Plan(dir, repo, m);
        PlanJobs(dir, repo, m);
        RunJobsWrites(remote, storeOk, stored.files, plan);
        forall p | p in d.files && !(p in files && d.files[p] == files[p])
          ensures p.dir == dir && p.repo == repo
        {
          if !(p in stored.files && d.files[p] == stored.files[p]) {
            var k :| 0 <= k < |plan| && plan[k].path == p &&
              ComputedDigest(remote.sha256, d.files[p]) == plan[k].digest;
          }
        }
      }
    }
  }

  // ---------------------------------------------------------------------
  // ListRepositories and DumpAllRepositories (registry.go:19-60)

  /** One catalog request, no pagination; the decoded list is returned as
      is, an empty one included. */
  function ListRepositories(remote: Remote): (r: Result<seq<string>, ListError>)
    ensures r.Ok? <==> remote.fetch(Catalog).Body? && remote.decodeCatalog(remote.fetch(Catalog).bytes).Some?
    ensures r.Ok? ==> r.value == remote.decodeCatalog(remote.fetch(Catalog).bytes).value
    ensures remote.fetch(Catalog).Failed? ==> r == Err(CatalogRequestFailed(remote.fetch(Catalog).error))
  {
    match remote.fetch(Catalog)
    case Failed(e) => Err(CatalogRequestFailed(e))
    case ReadFailed => Err(CatalogUndecodable)
    case Body(body) =>
      match remote.decodeCatalog(body)
      case None => Err(CatalogUndecodable)
      case Some(repos) => Ok(repos)
  }

  /** The repositories dumped one after another, each error dropped. */
  function DumpEach(remote: Remote, createOk: string -> bool, storeOk: Path -> bool,
                    dir: string, repos: seq<string>, files: Files): Ran
  {
    if repos == [] then Ran([], files)
    else
      var prev := DumpEach(remote, createOk, storeOk, dir, repos[..|repos| - 1], files);
      var d := DumpSpec(remote, createOk, storeOk, dir, repos[|repos| - 1], prev.files);
      Ran(prev.requests + d.requests, d.files)
  }

  datatype DumpAll = DumpAll(requests: seq<Request>, files: Files, err: Option<ListError>)

  function DumpAllSpec(remote: Remote, createOk: string -> bool, storeOk: Path -> bool,
                       dir: string, files: Files): DumpAll
  {
    match ListRepositories(remote)
    case Err(e) => DumpAll([Catalog], files, Some(e))
    case Ok(repos) =>
      var run := DumpEach(remote, createOk, storeOk, dir, repos, files);
      DumpAll([Catalog] + run.requests, run.files, None)
  }

  method DumpAllRepositories(remote: Remote, disk: Disk, outputDir: string)
    returns (requests: seq<Request>, err: Option<ListError>)
    modifies disk
    ensures DumpAll(requests, disk.files, err) ==
      DumpAllSpec(remote, disk.createOk, disk.storeOk, outputDir, old(disk.files))
  {
    var listed := ListRepositories(remote);
    if listed.Err? {
      return [Catalog], Some(listed.error);
    }
    var repos := listed.value;
    ghost var files0 := disk.files;
    var dumped: seq<Request> := [];
    for i := 0 to |repos|
      invariant dumped == DumpEach(remote, disk.createOk, disk.storeOk, outputDir, repos[..i], files0).requests
      invariant disk.files == DumpEach(remote, disk.createOk, disk.storeOk, outputDir, repos[..i], files0).files
    {
      DumpEachSnoc(remote, disk.createOk, disk.storeOk, outputDir, repos[..i], repos[i], files0);
      assert repos[..i + 1] == repos[..i] + [repos[i]];
      var sent, _ := DumpRepository(remote, disk, outputDir, repos[i]);
      dumped := dumped + sent;
    }
    assert repos[..|repos|] == repos;
    return [Catalog] + dumped, None;
  }

  lemma DumpEachSnoc(remote: Remote, createOk: string -> bool, storeOk: Path -> bool,
                     dir: string, repos: seq<string>, repo: string, files: Files)
    ensures var prev := DumpEach(remote, createOk, storeOk, dir, repos, files);
      var d := DumpSpec(remote, createOk, storeOk, dir, repo, prev.files);
      DumpEach(remote, createOk, storeOk, dir, repos + [repo], files) == Ran(prev.requests + d.requests, d.files)
  {
    assert (repos + [repo])[..|repos|] == repos;
  }

  /** The overall error is the listing error, unchanged, and nothing else:
      a failing repository never fails the whole dump. */
  lemma DumpAllErrorIsListingError(remote: Remote, createOk: string -> bool, storeOk: Path -> bool,
                                   dir: string, files: Files)
    ensures var d := DumpAllSpec(remote, createOk, storeOk, dir, files);
      && d.requests[0] == Catalog
      && (ListRepositories(remote).Err? <==> d.err.Some?)
      && (d.err.Some? ==> d.err.value == ListRepositories(remote).error && d.requests == [Catalog] && d.files == files)
  {
  }

  /** Every listed repository gets its own dump: when the output directory
      can be created, its tag list is requested whatever happened to the
      repositories before it. */
  lemma {:induction false} DumpEachReachesEveryRepo(remote: Remote, createOk: string -> bool, storeOk: Path -> bool,
                                                    dir: string, repos: seq<string>, files: Files)
    requires createOk(dir)
    ensures forall i :: 0 <= i < |repos| ==> Tags(repos[i]) in DumpEach(remote, createOk, storeOk, dir, repos, files).requests
  {
    if repos != [] {
      var n := |repos| - 1;
      DumpEachReachesEveryRepo(remote, createOk, storeOk, dir, repos[..n], files);
      var prev := DumpEach(remote, createOk, storeOk, dir, repos[..n], files);
      var d := DumpSpec(remote, createOk, storeOk, dir, repos[n], prev.files);
      assert d.requests[0] == Tags(repos[n]);
      forall i | 0 <= i < |repos|
        ensures Tags(repos[i]) in DumpEach(remote, createOk, storeOk, dir, repos, files).requests
      {
        if i < n {
          assert repos[i] == repos[..n][i];
        }
      }
    }
  }
}
