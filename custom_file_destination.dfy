/**
 * CustomFileDestination: a log destination that owns one live log file and
 * at most one write handle on it. Setting the owner opens or closes the
 * file; setting the file location reopens it.
 */
module CustomFileDestinations {
  import opened Wrappers
  import opened Platform
  import opened UploaderConfigurations

  /** A message the destination sends to its owning logger's error/warning channel. */
  datatype Notice =
    | OpenFailed(path: Path)
    | FileOperationFailed
    | EncodingFailed(identifier: string)
    | FailedUploadCleanupFailed
    | SuccessfulUploadCleanupFailed

  /** The extension of a file name: what follows its last dot, empty when there is none. */
  function PathExtension(name: string): string {
    if name == [] || name[|name| - 1] == '.' || '.' !in name then ""
    else PathExtension(name[..|name| - 1]) + [name[|name| - 1]]
  }

  /**
   * The extension is a dot-free suffix of the name, preceded by a dot when it
   * is not empty.
   */
  lemma {:induction false} ExtensionIsLastDotSuffix(name: string)
    ensures var ext := PathExtension(name);
      '.' !in ext && |ext| <= |name| && ext == name[|name| - |ext|..] &&
      (ext != "" ==> |ext| < |name| && name[|name| - |ext| - 1] == '.')
  {
    if !(name == [] || name[|name| - 1] == '.' || '.' !in name) {
      var prefix := name[..|name| - 1];
      ExtensionIsLastDotSuffix(prefix);
    }
  }

  /** The extension is exactly what follows the name's last dot, and empty when the name holds no dot. */
  lemma ExtensionIsAfterLastDot(name: string)
    ensures forall i :: 0 <= i < |name| && name[i] == '.' && '.' !in name[i + 1..] ==> PathExtension(name) == name[i + 1..]
    ensures '.' !in name ==> PathExtension(name) == ""
  {
    forall i | 0 <= i < |name| && name[i] == '.' && '.' !in name[i + 1..] {
      ExtensionAfterDot(name, i);
    }
  }

  /** A dot followed by no other dot ends where the extension begins. */
  lemma ExtensionAfterDot(name: string, i: int)
    requires 0 <= i < |name| && name[i] == '.' && '.' !in name[i + 1..]
    ensures PathExtension(name) == name[i + 1..]
  {
    assert name == name[..i] + "." + name[i + 1..];
    ExtensionOfDottedName(name[..i], name[i + 1..]);
  }

  /** A name built as `<stem>.<ext>` has the extension `ext`, whatever dots the stem holds. */
  lemma {:induction false} ExtensionOfDottedName(stem: string, ext: string)
    requires '.' !in ext
    ensures PathExtension(stem + "." + ext) == ext
  {
    var name := stem + "." + ext;
    if ext != [] {
      var shorter := ext[..|ext| - 1];
      assert name[..|name| - 1] == stem + "." + shorter;
      assert name[|name| - 1] == ext[|ext| - 1];
      assert name[|stem|] == '.';
      ExtensionOfDottedName(stem, shorter);
      assert ext == shorter + [ext[|ext| - 1]];
    } else {
      assert name[|name| - 1] == '.';
    }
  }

  /** The disk after making sure a file exists at `p`, and whether it exists. */
  function EnsureFile(d: Disk, p: Path): (r: (Disk, bool))
    ensures r.1 <==> p in r.0.files
    ensures r.1 <==> p in d.files || p.dir in d.dirs
    ensures p in d.files ==> r.0 == d
    ensures p !in d.files && r.1 ==> r.0.files == d.files[p := []] && r.0.dirs == d.dirs
    ensures !r.1 ==> r.0 == d
  {
    if p in d.files then (d, true) else CreateEmpty(d, p)
  }

  class CustomFileDestination {
    /** The platform file system the destination writes through. */
    const fs: FileSystem
    const identifier: string
    /** The extension of the file location given at initialization. */
    const defaultFileExtension: string
    /** Whether a logger owns the destination. */
    var hasOwner: bool
    var fileURL: Path
    var logFileHandle: Option<nat>
    var uploaderConfiguration: Option<LogUploaderConfiguration>
    /** The errors and warnings delivered to the owner, in order. */
    var notices: seq<Notice>

    /**
     * At most one handle is open, it belongs to this destination and writes
     * to the current file location, and only an owned destination holds one.
     */
    ghost predicate Valid()
      reads this, fs
    {
      fs.Valid() &&
      (logFileHandle.None? ==> fs.handles == map[]) &&
      (logFileHandle.Some? ==>
         hasOwner && fs.handles.Keys == {logFileHandle.value} &&
         fs.handles[logFileHandle.value].path == fileURL)
    }

    lemma AtMostOneHandle()
      requires Valid()
      ensures |fs.handles| <= 1
      ensures |fs.handles| == 1 <==> logFileHandle.Some?
    {
      if logFileHandle.Some? {
        assert fs.handles.Keys == {logFileHandle.value};
      }
    }

    constructor (owner: bool, fileURL: Path, identifier: string, uploaderConf: Option<LogUploaderConfiguration>, fs: FileSystem)
      requires fs.Valid() && fs.handles == map[]
      modifies fs
      ensures Valid()
      ensures this.fs == fs && this.identifier == identifier && this.fileURL == fileURL
      ensures hasOwner == owner && uploaderConfiguration == uploaderConf
      ensures defaultFileExtension == PathExtension(fileURL.name)
      ensures !owner ==> logFileHandle.None? && fs.disk == old(fs.disk) && notices == []
      ensures owner ==> (fs.disk, logFileHandle.Some?) == EnsureFile(old(fs.disk), fileURL)
      ensures owner ==> notices == if logFileHandle.Some? then [] else [OpenFailed(fileURL)]
    {
      this.fs := fs;
      this.fileURL := fileURL;
      this.defaultFileExtension := PathExtension(fileURL.name);
      this.hasOwner := owner;
      this.identifier := identifier;
      this.uploaderConfiguration := uploaderConf;
      this.logFileHandle := None;
      this.notices := [];
      new;
      if owner {
        OpenFile();
      }
    }

    /** Sends a notice to the owner; without an owner it is dropped. */
    method Notify(n: Notice)
      modifies this`notices
      ensures notices == if hasOwner then old(notices) + [n] else old(notices)
    {
      if hasOwner {
        notices := notices + [n];
      }
    }

    /**
     * openFile: without an owner nothing happens. Otherwise the previous
     * handle is closed, a missing file is created, and a fresh handle is
     * opened; when that fails the handle stays none and the owner is told.
     */
    method OpenFile()
      requires Valid()
      modifies this`logFileHandle, this`notices, fs
      ensures Valid()
      ensures !hasOwner ==>
        logFileHandle == old(logFileHandle) && notices == old(notices) &&
        fs.disk == old(fs.disk) && fs.handles == old(fs.handles) && fs.syncLog == old(fs.syncLog) &&
        fs.nextHandle == old(fs.nextHandle)
      ensures hasOwner ==> (fs.disk, logFileHandle.Some?) == EnsureFile(old(fs.disk), fileURL)
      ensures hasOwner && logFileHandle.Some? ==>
        logFileHandle.value == old(fs.nextHandle) && logFileHandle.value !in old(fs.handles) &&
        fs.handles == map[logFileHandle.value := Handle(fileURL, 0)]
      ensures hasOwner ==> notices == if logFileHandle.Some? then old(notices) else old(notices) + [OpenFailed(fileURL)]
      ensures hasOwner ==> fs.syncLog == old(fs.syncLog) + Synced(old(logFileHandle))
    {
      if !hasOwner {
        return;
      }
      if logFileHandle.Some? {
        CloseFile();
      }
      if !fs.FileExists(fileURL) {
        var _ := fs.CreateFile(fileURL);
      }
      logFileHandle := fs.OpenForWriting(fileURL);
      if logFileHandle.None? {
        Notify(OpenFailed(fileURL));
      }
    }

    /** closeFile: synchronizes and closes the handle, if any; afterwards no handle is open. */
    method CloseFile()
      requires Valid()
      modifies this`logFileHandle, fs
      ensures Valid()
      ensures logFileHandle.None? && fs.handles == map[]
      ensures fs.disk == old(fs.disk) && fs.nextHandle == old(fs.nextHandle)
      ensures fs.syncLog == old(fs.syncLog) + Synced(old(logFileHandle))
    {
      if logFileHandle.Some? {
        fs.Synchronize(logFileHandle.value);
        fs.CloseHandle(logFileHandle.value);
      }
      logFileHandle := None;
    }

    /** The owner's didSet observer: a new owner opens the file, no owner closes it. */
    method SetOwner(owner: bool)
      requires Valid()
      modifies this`hasOwner, this`logFileHandle, this`notices, fs
      ensures Valid() && hasOwner == owner
      ensures !owner ==> logFileHandle.None? && fs.handles == map[] && fs.disk == old(fs.disk) && notices == old(notices)
      ensures owner ==> (fs.disk, logFileHandle.Some?) == EnsureFile(old(fs.disk), fileURL)
      ensures owner ==> notices == if logFileHandle.Some? then old(notices) else old(notices) + [OpenFailed(fileURL)]
      ensures owner && logFileHandle.Some? ==>
        logFileHandle.value == old(fs.nextHandle) && fs.handles == map[logFileHandle.value := Handle(fileURL, 0)]
      ensures !owner ==> fs.nextHandle == old(fs.nextHandle)
      ensures fs.syncLog == old(fs.syncLog) + Synced(old(logFileHandle))
    {
      // The handle is closed before the owner is cleared, so no moment has a handle without an owner.
      if owner {
        hasOwner := true;
        OpenFile();
      } else {
        CloseFile();
        hasOwner := false;
      }
    }

    /**
     * The fileURL's didSet observer: the file is reopened at the new
     * location (when there is an owner). The default extension stays the one
     * captured at initialization.
     */
    method SetFileURL(url: Path)
      requires Valid()
      modifies this`fileURL, this`logFileHandle, this`notices, fs
      ensures Valid() && fileURL == url
      ensures !hasOwner ==> logFileHandle.None? && fs.disk == old(fs.disk) && notices == old(notices)
      ensures hasOwner ==> (fs.disk, logFileHandle.Some?) == EnsureFile(old(fs.disk), url)
      ensures hasOwner && logFileHandle.Some? ==>
        logFileHandle.value == old(fs.nextHandle) && fs.handles == map[logFileHandle.value := Handle(url, 0)]
      ensures hasOwner ==> notices == if logFileHandle.Some? then old(notices) else old(notices) + [OpenFailed(url)]
      ensures fs.syncLog == old(fs.syncLog) + Synced(old(logFileHandle))
    {
      // openFile closes the old handle first; closing it before the location
      // changes keeps every open handle on the current location.
      if logFileHandle.Some? {
        CloseFile();
      }
      fileURL := url;
      OpenFile();
    }

    /** The base finalize: nothing to finalize, so it reports failure. */
    method Finalize() returns (ok: bool)
      ensures !ok
    {
      ok := false;
    }

    /**
     * flush without a log queue: synchronizes the open handle, then runs the
     * completion closure, when given, exactly once.
     */
    method Flush(withClosure: bool) returns (closureRuns: nat)
      requires Valid()
      modifies fs
      ensures Valid()
      ensures fs.disk == old(fs.disk) && fs.handles == old(fs.handles) && fs.nextHandle == old(fs.nextHandle)
      ensures fs.syncLog == old(fs.syncLog) + Synced(logFileHandle)
      ensures closureRuns == if withClosure then 1 else 0
    {
      if logFileHandle.Some? {
        fs.Synchronize(logFileHandle.value);
      }
      closureRuns := 0;
      if withClosure {
        closureRuns := closureRuns + 1;
      }
    }
  }

  /** The entries a synchronization of an optional handle adds to the sync log. */
  function Synced(h: Option<nat>): seq<nat> {
    if h.Some? then [h.value] else []
  }
}
