# LogUploader core, modelled in Dafny

This project models the core of LogUploader, a Swift library that writes an
app's log records into a local file and uploads that file to a backend.

It covers four parts:

- **Outcome classification** (`log_upload_error.dfy`, `log_upload_result.dfy`).
  HTTP responses map to network errors: 401 is `authentication`, `400..<499` is
  `clientError`, `500..<599` is `serverError`, and anything else is no error.
  `LogUploadResult` has its `isSuccess`, `isFailure` and `error` accessors.
- **The file destination** (`custom_file_destination.dfy`). `CustomFileDestination`
  is a class that holds the live log file's location and at most one write
  handle. `openFile` and `closeFile` are modelled, and so are the `didSet`
  observers on `owner` and `fileURL`, the extension captured at initialization,
  the base `finalize` and the synchronous `flush`.
- **JSON framing** (`json_destination.dfy`). `output(log:)` seeks to the end of
  the file and writes the record's JSON encoding followed by a comma.
- **The default uploader** (`default_log_uploader.dfy`):
  - `upload` checks the configuration, stages the live file, builds the request,
    reads the transport's answer and archives the staged file.
  - `cleanup` moves the staged file into a sibling `successful/` or `failed/`
    folder, or deletes it.
  - `prepareFileForUpload` and `generateUrlRequest` are modelled too.

`platform.dfy` stands in for Foundation's FileManager and FileHandle. It is an
abstract disk with files as byte sequences, a set of directories, and a table
of open handles with their offsets. The rules it follows:

- A move fails when the source is missing, when the target is taken, or when the
  target's directory does not exist.
- A removal fails when nothing is at the path.
- Creating a file fails when its directory is missing.
- Opening a handle fails when the file is missing.

Foreign pieces come in as parameters:

- the base64 encoder;
- the JSON encoder (`Log -> Option<bytes>`, which may fail);
- the configured parameter encoder and header closure, which are fields of the
  configuration;
- the transport (`UrlRequest -> Response`);
- the documents directory;
- the time stamp that names the staged file;
- the text of a foreign error (`localizedDescription`).

The destination's `notices` field records the errors and warnings it sends to
its owning logger.

Points where the Swift code differs from what a reader might expect:

- The status ranges are `400..<499` and `500..<599`, so 499 and 599 are
  unclassified although section 15 of RFC 9110 puts them in 4xx and 5xx.
  `LogUploadErrors.AgreesWithStatusClasses` proves that the classifier matches
  the 4xx and 5xx classes everywhere except at those two codes.
- No bracket is ever written: `output(log:)` writes `enc(log) + ","` per
  record, so the file is never a closed JSON array.
  `JsonDestination.FramedEndsWithComma` shows that it always ends with a comma.
- The staged file goes to `<documents>/<identifier>/<stamp>.<extension>`, and the
  archive folders sit beside it. Nothing in the library creates either folder.
- After a failed staging the handle stays closed, so every later
  `output(log:)` writes nothing until the owner or `fileURL` is set again.
  `DefaultLogUploader.PrepareFileForUpload` and `DefaultLogUploader.Upload`
  both state that the handle is none then.
- When building the request throws, the staged file stays in
  `<documents>/<identifier>/`, neither archived nor deleted
  (`DefaultLogUploader.UploadDisk`).
- The only retry entry point is `uploadFailedLogs`, a stub that always reports
  success.

The destination gets its optional upload configuration from the `Uploadable`
protocol (LogUploader/Classes/LogUploader Protocol.swift:18). The model keeps it
as a field that the constructor sets, as `JSONDestination`'s initializer does.

## Model

| member | source | states |
|---|---|---|
| `LogUploadErrors.FromResponse` | LogUploader/Classes/LogUploadError.swift:45-58 | Only authentication, client or server errors come out; 401 and nothing else is authentication; no error exactly when the code (0 for a missing response) lies outside both half-open ranges |
| `LogUploadErrors.FromResponseAndError` | LogUploader/Classes/LogUploadError.swift:61-67 | The status-derived error when there is one, otherwise a connection error carrying the given error; never a missing-value error |
| `LogUploadErrors.ClientErrorClass` | LogUploader/Classes/LogUploadError.swift:47-51 | Across the 4xx class, 401 is authentication (priority over the range), 499 is unclassified and every other code is a client error |
| `LogUploadErrors.ServerErrorClass` | LogUploader/Classes/LogUploadError.swift:52-53 | Across the 5xx class, 599 is unclassified and every other code is a server error |
| `LogUploadErrors.AgreesWithStatusClasses` | LogUploader/Classes/LogUploadError.swift:45-58 | For every status 100–599 other than 499 and 599, a code is classified exactly when RFC 9110 puts it in class 4xx or 5xx, and it is a server error exactly in 5xx |
| `LogUploadErrors.MissingResponseIsFine` | LogUploader/Classes/LogUploadError.swift:46-56 | A missing response or a 2xx status is no error by itself, so together with any foreign error it becomes a connection error carrying that error |
| `LogUploadErrors.NetworkMessageFramed` | LogUploader/Classes/LogUploadError.swift:29-30 | The message of a network upload error is the fixed prefix followed by the network error's own message, unchanged |
| `LogUploadResults.LogUploadResult.IsSuccess` | LogUploader/Classes/LogUploadResult.swift:37-44 | True exactly for `success` |
| `LogUploadResults.LogUploadResult.IsFailure` | LogUploader/Classes/LogUploadResult.swift:47-49 | Always the negation of `IsSuccess` |
| `LogUploadResults.LogUploadResult.Error` | LogUploader/Classes/LogUploadResult.swift:52-59 | None for a success, exactly the carried error for a failure |
| `LogUploadResults.ErrorRoundTrip` | LogUploader/Classes/LogUploadResult.swift:52-59 | Reading the error of `failure(e)` gives back `e`, and every result is rebuilt from its error |
| `LogUploadResults.SuccessIffNoError` | LogUploader/Classes/LogUploadResult.swift:37-59 | A result is a success exactly when its error is none, and a failure exactly when it has one |
| `CustomFileDestinations.ExtensionIsLastDotSuffix` | LogUploader/Classes/CustomFileDestination.swift:44-46 | The extension is a dot-free suffix of the name, preceded by a dot whenever it is not empty |
| `CustomFileDestinations.ExtensionIsAfterLastDot` | LogUploader/Classes/CustomFileDestination.swift:44-46 | The extension is exactly what follows the name's last dot, and empty when the name holds no dot |
| `CustomFileDestinations.ExtensionOfDottedName` | LogUploader/Classes/DefaultLogUploader.swift:139 | A name `<stem>.<ext>` has extension `ext` whatever dots the stem (a fractional time stamp) holds |
| `CustomFileDestinations.EnsureFile` | LogUploader/Classes/CustomFileDestination.swift:71-79 | After the existence check and creation, the file exists exactly when it existed or its directory exists; an existing file is untouched and a created one is empty |
| `CustomFileDestinations.CustomFileDestination.constructor` | LogUploader/Classes/CustomFileDestination.swift:40-53 | Captures the location's extension once and opens the file only when an owner is given |
| `CustomFileDestinations.CustomFileDestination.AtMostOneHandle` | LogUploader/Classes/CustomFileDestination.swift:61-91 | Under the destination invariant at most one handle is open, and one is open exactly when the destination holds it |
| `CustomFileDestinations.CustomFileDestination.OpenFile` | LogUploader/Classes/CustomFileDestination.swift:61-84 | Without an owner nothing changes. With one, the old handle is synchronized and closed, a missing file is created, and the single open handle is a fresh one at offset 0, numbered by the platform's next handle number. When opening fails the handle stays none and the owner gets an error |
| `CustomFileDestinations.CustomFileDestination.CloseFile` | LogUploader/Classes/CustomFileDestination.swift:87-91 | Afterwards no handle is open. An open handle is synchronized first. Without one nothing changes, so closing twice is closing once |
| `CustomFileDestinations.CustomFileDestination.SetOwner` | LogUploader/Classes/CustomFileDestination.swift:16-25 | Setting an owner closes any old handle and opens the file (creating it if missing) with a new handle at offset 0, and tells the owner when that fails; clearing it closes the handle and leaves the disk and notices alone. Either way the old handle is synchronized first |
| `CustomFileDestinations.CustomFileDestination.SetFileURL` | LogUploader/Classes/CustomFileDestination.swift:28-32 | Changing the location closes the old handle and, when owned, opens a new handle at offset 0 on the new location, tells the owner when that fails, and synchronizes the old handle first; the extension captured at initialization is a constant and does not follow |
| `CustomFileDestinations.CustomFileDestination.Finalize` | LogUploader/Classes/CustomFileDestination.swift:94-97 | The base finalize always reports failure |
| `CustomFileDestinations.CustomFileDestination.Flush` | LogUploader/Classes/CustomFileDestination.swift:108-111 | Synchronizes the open handle, if any, and runs a given closure exactly once; files, handles and the next handle number are unchanged |
| `JsonDestination.AfterOutput` | LogUploader/Classes/JSONDestination.swift:27-33 | One output keeps the old content as a prefix; it changes the file exactly when a handle is open and encoding succeeds, and then adds the encoding and a comma |
| `JsonDestination.Output` | LogUploader/Classes/JSONDestination.swift:21-37 | The live file becomes `AfterOutput` of its old content: seek to end, then two writes. A failing encoder writes nothing and tells the owner. No handle means no write. Other files, the handle set, the sync log and the next handle number are unchanged |
| `JsonDestination.OutputsOnlyAppend` | LogUploader/Classes/JSONDestination.swift:27 | Any run of outputs only appends: the old content is a prefix of the new |
| `JsonDestination.OutputsAreFramed` | LogUploader/Classes/JSONDestination.swift:29-33 | After outputs of records that all encode, the file is its old content followed by each encoding plus a comma, in call order |
| `JsonDestination.ClosedOutputsChangeNothing` | LogUploader/Classes/JSONDestination.swift:27-32 | Without a handle any run of outputs leaves the file as it was |
| `JsonDestination.FramedEndsWithComma` | LogUploader/Classes/JSONDestination.swift:30-33 | A non-empty run of records always ends with a comma, so the file is never a closed JSON array |
| `JsonDestination.FramedLength` | LogUploader/Classes/JSONDestination.swift:29-33 | The framed file is as long as the encodings plus one comma per record |
| `DefaultLogUploader.RequestParameters` | LogUploader/Classes/DefaultLogUploader.swift:102-104 | "logFile" holds the base64 of the file's bytes; every other configured parameter is unchanged and no other key is added |
| `DefaultLogUploader.BuiltRequest` | LogUploader/Classes/DefaultLogUploader.swift:99-119 | An unreadable file and an encoder error are thrown as errors. Otherwise the encoder's request comes back with every header from the closure set over the encoder's own headers |
| `DefaultLogUploader.GenerateUrlRequest` | LogUploader/Classes/DefaultLogUploader.swift:99-119 | The method, with its loop setting one header at a time, produces exactly `BuiltRequest` of the file's bytes |
| `DefaultLogUploader.ArchivePath` | LogUploader/Classes/DefaultLogUploader.swift:66-78 | The archive location is the same name in a `successful` or `failed` folder directly beside the file |
| `DefaultLogUploader.CleanupSpec` | LogUploader/Classes/DefaultLogUploader.swift:66-87 | Storing moves the file to its archive location and deleting removes it. It succeeds exactly when that one operation can. On success the archived bytes are the file's. On failure nothing changes, and no folder is ever created |
| `DefaultLogUploader.Cleanup` | LogUploader/Classes/DefaultLogUploader.swift:66-87 | Changes the disk as `CleanupSpec` says and reports its success; handles are untouched |
| `DefaultLogUploader.UploadFailedLogs` | LogUploader/Classes/DefaultLogUploader.swift:90-92 | The stub always reports success |
| `DefaultLogUploader.StagedPathKeepsExtension` | LogUploader/Classes/DefaultLogUploader.swift:138-140 | The staged file lies in `<documents>/<identifier>` and carries the destination's extension |
| `DefaultLogUploader.Stage` | LogUploader/Classes/DefaultLogUploader.swift:132-154 | Staging succeeds exactly when the live file exists, differs from the staging location and the staging folder exists. Then the staged file holds the live bytes and the live file is gone. A failure with distinct locations changes nothing |
| `DefaultLogUploader.PrepareFileForUpload` | LogUploader/Classes/DefaultLogUploader.swift:128-162 | Closes the handle first, and returns the staged location exactly when staging succeeds. Then it reopens with a new handle, not one open before the call (a fresh empty live file when owned), and flushes. The sync log gains the old handle's close and the new handle's flush and nothing else. On failure the handle stays closed, and the owner is told unless the live file was missing |
| `DefaultLogUploader.Upload` | LogUploader/Classes/DefaultLogUploader.swift:19-56 | The result is `UploadOutcome` of the starting disk. The disk afterwards is staged, reopened, then archived or deleted by the answer and the matching store switch. Owner warnings are exactly the staging error and the failed-archival warning. The request handed to the transport is `BuiltRequest` of the live bytes at the start, sent exactly when every guard passes, and its answer alone decides the result. After staging the handle is reopened exactly when owned, as a new handle that was not open before; after a failed staging it stays closed. The sync log gains only the old handle's close and the new handle's flush |
| `DefaultLogUploader.GuardOrder` | LogUploader/Classes/DefaultLogUploader.swift:21-34 | Missing configuration comes first, then a failed staging, then a failed request. Only a built request reaches the transport, and success means an answer without error. The result is never missing-destination or missing-value |
| `DefaultLogUploader.ResultIgnoresArchival` | LogUploader/Classes/DefaultLogUploader.swift:37-50 | Neither the store switches nor the existence of the archive folders change the reported result |
| `DefaultLogUploader.RequestCarriesLiveFile` | LogUploader/Classes/DefaultLogUploader.swift:19-56 | The result depends on the disk only through the live file's bytes when upload begins and whether the staging folder exists: two starting disks that agree on those give the same result |
| `DefaultLogUploader.FailedUploadIsArchived` | LogUploader/Classes/DefaultLogUploader.swift:37-43 | A rejected upload with storing of failures leaves the old live bytes under `failed/`. The staged file is gone, and an owned destination has a fresh empty live file. The result is the classified network error |
| `DefaultLogUploader.DeliveredUploadIsDeleted` | LogUploader/Classes/DefaultLogUploader.swift:44-50 | A delivered upload without storing of successes deletes the staged file, puts nothing under `successful/`, and reports success |
| `DefaultLogUploader.RejectedStatusesClassified` | LogUploader/Classes/DefaultLogUploader.swift:36-43 | A rejected answer with status 401 reports authentication and 503 reports a server error. A 200 that still carries an error reports a connection error carrying that error, whatever it is |

## Left out

- Alamofire's request, `validate()` and the asynchronous response callback. The transport is a function from the request to an answer, and the completion runs synchronously.
- `URLRequest` construction and `ParameterEncoding.encode`. The encoder is an opaque function in the configuration that may fail. The model keeps only the parameter and header map updates, and treats header names as exact keys (no case folding).
- Base64 (section 4 of RFC 4648) and `JSONEncoder` with seconds-since-1970 dates: opaque function parameters.
- FileManager, FileHandle and `NSSearchPathForDirectoriesInDomains`. Their failure modes are reduced to the missing-file, taken-target and missing-folder rules above. Permissions, full disks and write exceptions are not modelled. A handle writes by path, not by inode, and a directory is never a file path.
- `PathExtension` follows the last-dot rule. Foundation's special cases (a leading dot, a trailing slash) are not modelled.
- The time stamp that names the staged file is an input string, not a clock reading.
- The asynchronous branch of `flush` (a log queue): concurrency.
- `deinit` closing the file: Dafny has no deinitializers.
- The base `output`, which only fails a precondition: abstract, with nothing to model.
- The text of owner messages and of `connection`'s `localizedDescription`. Notices are a list of kinds, and the description is a parameter.
- `StagedPath`: the identifier is always exactly one folder below the documents directory. An empty identifier (the default) gives `<documents>//<stamp>.<extension>`, which the system resolves to the documents directory itself; the model instead needs a folder named by the empty string, and reports `logFileError` without it. An identifier holding `/` adds folder levels in Swift but not in the model.
- `CustomFileDestination.identifier` is a constant here, while Swift declares it `open var` (Struct Destination.swift:18). No modelled operation assigns it, so renaming a destination after creation is not modelled.
- `CustomFileDestination.Valid`: a destination claims every open handle of its `FileSystem`, and the constructor requires a handle table with no open handles. Two destinations therefore never share the disk that `upload` and `cleanup` act on, and interference between them is not modelled.
- `LogUploadConfiguration.parameters` is `[String: Any]` in Swift and a map from strings to strings here. Only the `logFile` entry, a string, is ever written, so the narrowing hides no operation of the core.
- Retry of failed uploads, batch upload-all and delete-all: not in the modelled code, whose `uploadFailedLogs` is a stub.
- `LUResult` is declared as a record, and nothing is proved about it.
- The uploader protocol declaration, the global logger setup and the example app's UI.
