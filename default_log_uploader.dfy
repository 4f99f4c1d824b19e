/**
 * DefaultLogUploader: moves the live log file of a destination aside,
 * builds a POST request carrying it, hands the request to the transport and
 * archives or deletes the staged file depending on the outcome and the
 * destination's configuration. Archival failures are only reported to the
 * owner; they never change the upload's result.
 */
module DefaultLogUploader {
  import opened Wrappers
  import opened Platform
  import opened LogUploadErrors
  import opened LogUploadResults
  import opened UploaderConfigurations
  import opened CustomFileDestinations

  /** What the transport answers: the HTTP response, if any, and the error, if any. */
  datatype Response = Response(response: Option<HttpResponse>, error: Option<SystemError>)

  const LogFileKey: string := "logFile"
  const SuccessfulFolder: string := "successful"
  const FailedFolder: string := "failed"

  // ---------------------------------------------------------------- request

  /** The request parameters: the configured ones, with the payload under "logFile". */
  function RequestParameters(parameters: map<string, string>, data: seq<byte>, base64: seq<byte> -> string): (r: map<string, string>)
    ensures r.Keys == parameters.Keys + {LogFileKey}
    ensures r[LogFileKey] == base64(data)
    ensures forall k :: k in parameters && k != LogFileKey ==> r[k] == parameters[k]
  {
    parameters[LogFileKey := base64(data)]
  }

  /** The headers the configured closure yields, none when there is no closure. */
  function ClosureHeaders(conf: LogUploadConfiguration): map<string, string> {
    if conf.headers.Some? then conf.headers.value() else map[]
  }

  /**
   * The request built from the file's bytes (none when it cannot be read):
   * a POST to the configured URL, encoded by the configured encoder, with
   * every header of the closure set over the encoder's headers.
   */
  function BuiltRequest(data: Option<seq<byte>>, conf: LogUploadConfiguration, base64: seq<byte> -> string): (r: Result<UrlRequest, SystemError>)
    ensures data.None? ==> r == Err(FileReadError)
    ensures data.Some? ==>
      var encoded := conf.parameterEncoding(UrlRequest(conf.requestURL, "POST", map[], map[]), RequestParameters(conf.parameters, data.value, base64));
      (r.Err? <==> encoded.Err?) && (encoded.Err? ==> r.error == encoded.error) &&
      (r.Ok? ==>
         r.value.url == encoded.value.url && r.value.httpMethod == encoded.value.httpMethod &&
         r.value.body == encoded.value.body &&
         r.value.headers.Keys == encoded.value.headers.Keys + ClosureHeaders(conf).Keys &&
         (forall f :: f in ClosureHeaders(conf) ==> r.value.headers[f] == ClosureHeaders(conf)[f]) &&
         (forall f :: f in encoded.value.headers && f !in ClosureHeaders(conf) ==> r.value.headers[f] == encoded.value.headers[f]))
  {
    if data.None? then Err(FileReadError)
    else
      var encoded := conf.parameterEncoding(UrlRequest(conf.requestURL, "POST", map[], map[]), RequestParameters(conf.parameters, data.value, base64));
      if encoded.Err? then Err(encoded.error)
      else Ok(encoded.value.(headers := encoded.value.headers + ClosureHeaders(conf)))
  }

  /** The bytes at a path, none when there is no file there. */
  function ReadFile(files: map<Path, seq<byte>>, p: Path): Option<seq<byte>> {
    if p in files then Some(files[p]) else None
  }

  /**
   * generateUrlRequest: reads the file (throwing when it is missing), puts
   * it base64-encoded under "logFile", encodes the parameters into a POST
   * request and sets the closure's headers one by one.
   */
  method GenerateUrlRequest(files: map<Path, seq<byte>>, fileUrl: Path, conf: LogUploadConfiguration, base64: seq<byte> -> string)
    returns (r: Result<UrlRequest, SystemError>)
    ensures r == BuiltRequest(ReadFile(files, fileUrl), conf, base64)
  {
    if fileUrl !in files {
      return Err(FileReadError);
    }
    var parameters := RequestParameters(conf.parameters, files[fileUrl], base64);
    var encoded := conf.parameterEncoding(UrlRequest(conf.requestURL, "POST", map[], map[]), parameters);
    if encoded.Err? {
      return Err(encoded.error);
    }
    var urlRequest := encoded.value;
    if conf.headers.Some? {
      var headers := conf.headers.value();
      var pending := headers.Keys;
      while pending != {}
        invariant pending <= headers.Keys
        invariant urlRequest == encoded.value.(headers := urlRequest.headers)
        invariant urlRequest.headers == encoded.value.headers + map f | f in headers.Keys - pending :: headers[f]
        decreases pending
      {
        var field :| field in pending;
        urlRequest := urlRequest.(headers := urlRequest.headers[field := headers[field]]);
        pending := pending - {field};
      }
      assert headers.Keys - pending == headers.Keys;
      assert (map f | f in headers.Keys :: headers[f]) == headers;
    } else {
      assert encoded.value.headers + map[] == encoded.value.headers;
    }
    r := Ok(urlRequest);
  }

  // ---------------------------------------------------------------- cleanup

  /** Where cleanup stores a file: a "successful" or "failed" folder beside it, under the same name. */
  function ArchivePath(successful: bool, fileUrl: Path): (r: Path)
    ensures r.name == fileUrl.name
    ensures |r.dir| == |fileUrl.dir| + 1 && r.dir[..|fileUrl.dir|] == fileUrl.dir
    ensures r.dir[|fileUrl.dir|] == if successful then SuccessfulFolder else FailedFolder
  {
    Path(fileUrl.dir + [if successful then SuccessfulFolder else FailedFolder], fileUrl.name)
  }

  /** The disk after cleanup and whether its single move or removal succeeded. */
  function CleanupSpec(d: Disk, successful: bool, fileUrl: Path, store: bool): (r: (Disk, bool))
    ensures store ==> (r.1 <==> fileUrl in d.files && ArchivePath(successful, fileUrl) !in d.files && ArchivePath(successful, fileUrl).dir in d.dirs)
    ensures !store ==> (r.1 <==> fileUrl in d.files)
    ensures r.1 ==> fileUrl !in r.0.files
    ensures r.1 && store ==> ArchivePath(successful, fileUrl) in r.0.files && r.0.files[ArchivePath(successful, fileUrl)] == d.files[fileUrl]
    ensures !r.1 ==> r.0 == d
    ensures r.0.dirs == d.dirs
    ensures WellFormed(d) ==> WellFormed(r.0)
  {
    if store then Move(d, fileUrl, ArchivePath(successful, fileUrl)) else Remove(d, fileUrl)
  }

  /**
   * cleanup: stores the file in the "successful" or "failed" folder beside
   * it, or deletes it; reports whether that one operation succeeded. The
   * folder is never created.
   */
  method Cleanup(fs: FileSystem, successful: bool, fileUrl: Path, store: bool) returns (ok: bool)
    requires fs.Valid()
    modifies fs
    ensures fs.Valid()
    ensures (fs.disk, ok) == CleanupSpec(old(fs.disk), successful, fileUrl, store)
    ensures fs.handles == old(fs.handles) && fs.syncLog == old(fs.syncLog) && fs.nextHandle == old(fs.nextHandle)
  {
    if store {
      ok := fs.MoveItem(fileUrl, ArchivePath(successful, fileUrl));
    } else {
      ok := fs.RemoveItem(fileUrl);
    }
  }

  /** The other cleanup is not implemented: it always reports success. */
  function UploadFailedLogs(): (r: LogUploadResult<LogUploadError>)
    ensures r.IsSuccess() && r.Error() == None
  {
    Success
  }

  // ---------------------------------------------------------------- staging

  /** The staging location `<docs>/<identifier>/<stamp>.<extension>`. */
  function StagedPath(docs: seq<string>, identifier: string, stamp: string, extension: string): Path {
    Path(docs + [identifier], stamp + "." + extension)
  }

  /** The staged file carries the destination's extension, whatever the time stamp looks like. */
  lemma StagedPathKeepsExtension(docs: seq<string>, identifier: string, stamp: string, extension: string)
    requires '.' !in extension
    ensures PathExtension(StagedPath(docs, identifier, stamp, extension).name) == extension
    ensures StagedPath(docs, identifier, stamp, extension).dir == docs + [identifier]
  {
    ExtensionOfDottedName(stamp, extension);
  }

  /**
   * The disk after moving the live file to the staging location, and
   * whether that worked: nothing happens when the live file is missing; a
   * file already at the staging location is removed first.
   */
  function Stage(d: Disk, live: Path, staged: Path): (r: (Disk, bool))
    ensures r.1 <==> live in d.files && live != staged && staged.dir in d.dirs
    ensures r.1 ==> staged in r.0.files && r.0.files[staged] == d.files[live] && live !in r.0.files
    ensures r.1 ==> forall p :: p != live && p != staged ==> (p in r.0.files <==> p in d.files)
    ensures WellFormed(d) && !r.1 && live != staged ==> r.0 == d
    ensures r.0.dirs == d.dirs
    ensures WellFormed(d) ==> WellFormed(r.0)
  {
    if live !in d.files then (d, false)
    else
      var cleared := if staged in d.files then Remove(d, staged) else (d, true);
      Move(cleared.0, live, staged)
  }

  /** The disk after prepareFileForUpload: staged, and with a fresh live file when the destination is owned. */
  function PreparedDisk(d: Disk, owned: bool, live: Path, staged: Path): Disk {
    var s := Stage(d, live, staged);
    if s.1 && owned then EnsureFile(s.0, live).0 else s.0
  }

  /**
   * prepareFileForUpload: closes the handle, moves the live file to the
   * staging location and reopens a fresh live file. Returns the staged
   * location, or none (with the handle left closed) when the live file is
   * missing or a file operation fails.
   */
  method PrepareFileForUpload(d: CustomFileDestination, docs: seq<string>, stamp: string) returns (uploadFileUrl: Option<Path>)
    requires d.Valid()
    modifies d`logFileHandle, d`notices, d.fs
    ensures d.Valid()
    ensures var staged := StagedPath(docs, d.identifier, stamp, d.defaultFileExtension);
      var s := Stage(old(d.fs.disk), d.fileURL, staged);
      (uploadFileUrl.Some? <==> s.1) && (uploadFileUrl.Some? ==> uploadFileUrl.value == staged) &&
      d.fs.disk == PreparedDisk(old(d.fs.disk), d.hasOwner, d.fileURL, staged) &&
      (s.1 ==> (d.logFileHandle.Some? <==> d.hasOwner)) &&
      (!s.1 ==> d.logFileHandle.None?) &&
      (d.notices == if d.hasOwner && !s.1 && d.fileURL in old(d.fs.disk.files) then old(d.notices) + [FileOperationFailed] else old(d.notices))
    ensures d.logFileHandle.Some? ==> d.logFileHandle.value !in old(d.fs.handles)
    ensures d.fs.syncLog == old(d.fs.syncLog) + Synced(old(d.logFileHandle)) + Synced(d.logFileHandle)
  {
    d.CloseFile();
    if !d.fs.FileExists(d.fileURL) {
      return None;
    }
    var staged := StagedPath(docs, d.identifier, stamp, d.defaultFileExtension);
    if d.fs.FileExists(staged) {
      var removed := d.fs.RemoveItem(staged);
    }
    var moved := d.fs.MoveItem(d.fileURL, staged);
    if !moved {
      d.Notify(FileOperationFailed);
      return None;
    }
    d.OpenFile();
    var _ := d.Flush(false);
    uploadFileUrl := Some(staged);
  }

  // ---------------------------------------------------------------- upload

  /**
   * The result upload reports: the guards in order (configuration, staged
   * file, request), then the transport's answer to the request. `d` is the
   * disk when upload starts.
   */
  function UploadOutcome(conf: Option<LogUploaderConfiguration>, d: Disk, live: Path, staged: Path,
                         base64: seq<byte> -> string, transport: UrlRequest -> Response): LogUploadResult<LogUploadError>
  {
    if conf.None? then Failure(MissingConfiguration)
    else if !Stage(d, live, staged).1 then Failure(LogFileError)
    else match BuiltRequest(ReadFile(d.files, live), conf.value.uploadConf, base64)
      case Err(e) => Failure(MissingRequest(e))
      case Ok(request) =>
        var answer := transport(request);
        if answer.error.Some? then Failure(Network(FromResponseAndError(answer.response, answer.error.value)))
        else Success
  }

  /** The disk after upload: staged and reopened, then the staged file archived or deleted. */
  function UploadDisk(conf: Option<LogUploaderConfiguration>, owned: bool, d: Disk, live: Path, staged: Path,
                      base64: seq<byte> -> string, transport: UrlRequest -> Response): Disk
  {
    if conf.None? then d
    else if !Stage(d, live, staged).1 then Stage(d, live, staged).0
    else
      var prepared := PreparedDisk(d, owned, live, staged);
      match BuiltRequest(ReadFile(d.files, live), conf.value.uploadConf, base64)
      case Err(_) => prepared
      case Ok(request) =>
        var delivered := transport(request).error.None?;
        CleanupSpec(prepared, delivered, staged,
                    if delivered then conf.value.storeSuccessfulUploads else conf.value.storeFailedUploads).0
  }

  /** The errors and warnings upload sends to the owner of the destination. */
  function UploadNotices(conf: Option<LogUploaderConfiguration>, owned: bool, d: Disk, live: Path, staged: Path,
                         base64: seq<byte> -> string, transport: UrlRequest -> Response): seq<Notice>
  {
    if conf.None? || !owned then []
    else if !Stage(d, live, staged).1 then (if live in d.files then [FileOperationFailed] else [])
    else match BuiltRequest(ReadFile(d.files, live), conf.value.uploadConf, base64)
      case Err(_) => []
      case Ok(request) =>
        var delivered := transport(request).error.None?;
        var archived := CleanupSpec(PreparedDisk(d, owned, live, staged), delivered, staged,
                                    if delivered then conf.value.storeSuccessfulUploads else conf.value.storeFailedUploads).1;
        if archived then []
        else if delivered then [SuccessfulUploadCleanupFailed]
        else [FailedUploadCleanupFailed]
  }

  /**
   * upload: checks the configuration, stages the live file, builds the
   * request, sends it and archives the staged file according to the answer.
   * A failed archival is only reported to the owner as a warning. `sent` is
   * the request handed to the transport, if any.
   */
  method Upload(d: CustomFileDestination, docs: seq<string>, stamp: string,
                base64: seq<byte> -> string, transport: UrlRequest -> Response)
    returns (result: LogUploadResult<LogUploadError>, ghost sent: Option<UrlRequest>)
    requires d.Valid()
    modifies d`logFileHandle, d`notices, d.fs
    ensures d.Valid()
    ensures d.uploaderConfiguration.None? ==> sent.None?
    ensures d.uploaderConfiguration.Some? ==>
      var staged := StagedPath(docs, d.identifier, stamp, d.defaultFileExtension);
      var request := BuiltRequest(ReadFile(old(d.fs.disk).files, d.fileURL), d.uploaderConfiguration.value.uploadConf, base64);
      (sent.Some? <==> Stage(old(d.fs.disk), d.fileURL, staged).1 && request.Ok?) &&
      (sent.Some? ==> sent.value == request.value)
    ensures sent.Some? ==>
      result == if transport(sent.value).error.Some?
                then Failure(Network(FromResponseAndError(transport(sent.value).response, transport(sent.value).error.value)))
                else Success
    ensures d.uploaderConfiguration.Some? ==>
      var staged := StagedPath(docs, d.identifier, stamp, d.defaultFileExtension);
      var s := Stage(old(d.fs.disk), d.fileURL, staged).1;
      (s ==> (d.logFileHandle.Some? <==> d.hasOwner)) && (!s ==> d.logFileHandle.None?)
    ensures d.uploaderConfiguration.Some? ==>
      (d.logFileHandle.Some? ==> d.logFileHandle.value !in old(d.fs.handles)) &&
      d.fs.syncLog == old(d.fs.syncLog) + Synced(old(d.logFileHandle)) + Synced(d.logFileHandle)
    ensures |old(d.fs.syncLog)| <= |d.fs.syncLog| && d.fs.syncLog[..|old(d.fs.syncLog)|] == old(d.fs.syncLog)
    ensures var staged := StagedPath(docs, d.identifier, stamp, d.defaultFileExtension);
      result == UploadOutcome(d.uploaderConfiguration, old(d.fs.disk), d.fileURL, staged, base64, transport) &&
      d.fs.disk == UploadDisk(d.uploaderConfiguration, d.hasOwner, old(d.fs.disk), d.fileURL, staged, base64, transport)
    ensures d.notices == old(d.notices) +
      UploadNotices(d.uploaderConfiguration, d.hasOwner, old(d.fs.disk), d.fileURL,
                    StagedPath(docs, d.identifier, stamp, d.defaultFileExtension), base64, transport)
    ensures d.uploaderConfiguration.None? ==>
      d.logFileHandle == old(d.logFileHandle) && d.fs.syncLog == old(d.fs.syncLog) &&
      d.fs.handles == old(d.fs.handles) && d.fs.nextHandle == old(d.fs.nextHandle)
  {
    sent := None;
    if d.uploaderConfiguration.None? {
      return Failure(MissingConfiguration), None;
    }
    var conf := d.uploaderConfiguration.value;
    ghost var before := d.fs.disk;
    var uploadFileUrl := PrepareFileForUpload(d, docs, stamp);
    if uploadFileUrl.None? {
      return Failure(LogFileError), None;
    }
    var staged := uploadFileUrl.value;
    assert ReadFile(d.fs.disk.files, staged) == ReadFile(before.files, d.fileURL);
    var request := GenerateUrlRequest(d.fs.disk.files, staged, conf.uploadConf, base64);
    if request.Err? {
      return Failure(MissingRequest(request.error)), None;
    }
    sent := Some(request.value);
    var answer := transport(request.value);
    if answer.error.Some? {
      var networkError := FromResponseAndError(answer.response, answer.error.value);
      var archived := Cleanup(d.fs, false, staged, conf.storeFailedUploads);
      if !archived {
        d.Notify(FailedUploadCleanupFailed);
      }
      result := Failure(Network(networkError));
    } else {
      var archived := Cleanup(d.fs, true, staged, conf.storeSuccessfulUploads);
      if !archived {
        d.Notify(SuccessfulUploadCleanupFailed);
      }
      result := Success;
    }
  }

  /**
   * The guards act in order: a missing configuration wins over everything,
   * then a failed staging, then a failed request; only a request that was
   * built reaches the transport, and its answer alone decides the rest.
   */
  lemma GuardOrder(conf: Option<LogUploaderConfiguration>, d: Disk, live: Path, staged: Path,
                   base64: seq<byte> -> string, transport: UrlRequest -> Response)
    ensures var r := UploadOutcome(conf, d, live, staged, base64, transport);
      (r == Failure(MissingConfiguration) <==> conf.None?) &&
      (r == Failure(LogFileError) <==> conf.Some? && !(live in d.files && live != staged && staged.dir in d.dirs)) &&
      (r.Failure? && r.failure.MissingRequest? <==>
         conf.Some? && Stage(d, live, staged).1 && BuiltRequest(ReadFile(d.files, live), conf.value.uploadConf, base64).Err?) &&
      (r.IsSuccess() <==>
         conf.Some? && Stage(d, live, staged).1 &&
         var q := BuiltRequest(ReadFile(d.files, live), conf.value.uploadConf, base64);
         q.Ok? && transport(q.value).error.None?)
    ensures var r := UploadOutcome(conf, d, live, staged, base64, transport);
      !(r.Failure? && (r.failure.MissingDestination? || (r.failure.Network? && r.failure.error.MissingValue?)))
  {
  }

  /**
   * The result never depends on the archival switches nor on whether the
   * archive folders exist: archival cannot change what upload reports.
   */
  lemma ResultIgnoresArchival(conf: LogUploaderConfiguration, storeFailed: bool, storeSuccessful: bool,
                              d: Disk, live: Path, staged: Path,
                              base64: seq<byte> -> string, transport: UrlRequest -> Response)
    ensures var other := conf.(storeFailedUploads := storeFailed, storeSuccessfulUploads := storeSuccessful);
      var withFolders := Disk(d.files, d.dirs + {ArchivePath(true, staged).dir, ArchivePath(false, staged).dir});
      UploadOutcome(Some(conf), d, live, staged, base64, transport) ==
      UploadOutcome(Some(other), withFolders, live, staged, base64, transport)
  {
    var withFolders := Disk(d.files, d.dirs + {ArchivePath(true, staged).dir, ArchivePath(false, staged).dir});
    assert staged.dir != ArchivePath(true, staged).dir && staged.dir != ArchivePath(false, staged).dir;
    assert Stage(d, live, staged).1 == Stage(withFolders, live, staged).1;
  }

  /** The preconditions under which the transport is reached. */
  predicate Reaches(conf: LogUploaderConfiguration, d: Disk, live: Path, staged: Path, base64: seq<byte> -> string) {
    live in d.files && live != staged && staged.dir in d.dirs &&
    BuiltRequest(ReadFile(d.files, live), conf.uploadConf, base64).Ok?
  }

  /**
   * The request is built from the live file's bytes as they are when upload
   * starts, and from nothing else on the disk: two starting disks that agree
   * on those bytes and on the staging conditions give the same result.
   */
  lemma RequestCarriesLiveFile(conf: Option<LogUploaderConfiguration>, d1: Disk, d2: Disk, live: Path, staged: Path,
                               base64: seq<byte> -> string, transport: UrlRequest -> Response)
    requires (live in d1.files <==> live in d2.files) && (live in d1.files ==> d1.files[live] == d2.files[live])
    requires staged.dir in d1.dirs <==> staged.dir in d2.dirs
    ensures UploadOutcome(conf, d1, live, staged, base64, transport) == UploadOutcome(conf, d2, live, staged, base64, transport)
  {
    assert Stage(d1, live, staged).1 == Stage(d2, live, staged).1;
    assert ReadFile(d1.files, live) == ReadFile(d2.files, live);
  }

  /**
   * A rejected upload (an answer with an error) stored as failed: the
   * staged file ends under "failed/" with the live file's old bytes, the
   * owned destination has a fresh empty live file, and the result is the
   * classified network error.
   */
  lemma FailedUploadIsArchived(conf: LogUploaderConfiguration, owned: bool, d: Disk, live: Path, staged: Path,
                               base64: seq<byte> -> string, transport: UrlRequest -> Response)
    requires WellFormed(d) && Reaches(conf, d, live, staged, base64)
    requires conf.storeFailedUploads
    requires var answer := transport(BuiltRequest(ReadFile(d.files, live), conf.uploadConf, base64).value);
      answer.error.Some?
    requires ArchivePath(false, staged).dir in d.dirs && ArchivePath(false, staged) !in d.files
    requires ArchivePath(false, staged) != live
    ensures var after := UploadDisk(Some(conf), owned, d, live, staged, base64, transport);
      ArchivePath(false, staged) in after.files && after.files[ArchivePath(false, staged)] == d.files[live] &&
      staged !in after.files &&
      (owned ==> live in after.files && after.files[live] == [])
    ensures var answer := transport(BuiltRequest(ReadFile(d.files, live), conf.uploadConf, base64).value);
      UploadOutcome(Some(conf), d, live, staged, base64, transport) ==
      Failure(Network(FromResponseAndError(answer.response, answer.error.value)))
  {
    var s := Stage(d, live, staged);
    var prepared := PreparedDisk(d, owned, live, staged);
    assert ArchivePath(false, staged) !in s.0.files;
    if owned {
      assert live.dir in d.dirs;
      assert prepared.files == s.0.files[live := []];
    }
    assert staged in prepared.files && prepared.files[staged] == d.files[live];
    assert ArchivePath(false, staged) !in prepared.files;
  }

  /**
   * A delivered upload (an answer without error) with the default of not
   * storing successful uploads: the staged file is deleted, nothing is put
   * under "successful/", and the result is a success.
   */
  lemma DeliveredUploadIsDeleted(conf: LogUploaderConfiguration, owned: bool, d: Disk, live: Path, staged: Path,
                                 base64: seq<byte> -> string, transport: UrlRequest -> Response)
    requires WellFormed(d) && Reaches(conf, d, live, staged, base64)
    requires !conf.storeSuccessfulUploads
    requires transport(BuiltRequest(ReadFile(d.files, live), conf.uploadConf, base64).value).error.None?
    ensures var after := UploadDisk(Some(conf), owned, d, live, staged, base64, transport);
      staged !in after.files &&
      (ArchivePath(true, staged) != live ==> (ArchivePath(true, staged) in after.files <==> ArchivePath(true, staged) in d.files))
    ensures UploadOutcome(Some(conf), d, live, staged, base64, transport) == Success
  {
  }

  /**
   * The scenario of an unauthorized answer: status 401 with an error gives
   * an authentication failure, and a 503 gives a server error.
   */
  lemma RejectedStatusesClassified(conf: LogUploaderConfiguration, d: Disk, live: Path, staged: Path,
                                   base64: seq<byte> -> string, transport: UrlRequest -> Response,
                                   code: int, error: SystemError)
    requires Reaches(conf, d, live, staged, base64)
    requires transport(BuiltRequest(ReadFile(d.files, live), conf.uploadConf, base64).value) ==
      Response(Some(HttpResponse(code)), Some(error))
    ensures code == 401 ==> UploadOutcome(Some(conf), d, live, staged, base64, transport) == Failure(Network(Authentication))
    ensures code == 503 ==> UploadOutcome(Some(conf), d, live, staged, base64, transport) == Failure(Network(ServerError))
    ensures code == 200 ==>
      UploadOutcome(Some(conf), d, live, staged, base64, transport) == Failure(Network(Connection(error)))
  {
  }
}
