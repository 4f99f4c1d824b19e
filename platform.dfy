/**
 * The parts of Foundation's FileManager and FileHandle that the uploader and
 * the file destinations use, over an abstract disk: a map from file paths to
 * their bytes, a set of existing directories and a table of open write handles.
 */
module Platform {
  import opened Wrappers

  newtype byte = x: int | 0 <= x < 256

  /** A file location: the directory components and the last path component. */
  datatype Path = Path(dir: seq<string>, name: string)

  /** The regular files and the directories present on disk. */
  datatype Disk = Disk(files: map<Path, seq<byte>>, dirs: set<seq<string>>)

  /** Every file lies in an existing directory. */
  ghost predicate WellFormed(d: Disk) {
    forall p :: p in d.files ==> p.dir in d.dirs
  }

  /**
   * FileManager.moveItem(at:to:): fails when the source is missing, when
   * something already sits at the destination, or when the destination's
   * directory does not exist (it never creates directories).
   */
  function Move(d: Disk, src: Path, dst: Path): (r: (Disk, bool))
    ensures r.1 <==> src in d.files && dst !in d.files && dst.dir in d.dirs
    ensures r.1 ==> dst in r.0.files && r.0.files[dst] == d.files[src] && src !in r.0.files
    ensures r.1 ==> forall p :: p != src && p != dst ==> (p in r.0.files <==> p in d.files)
    ensures r.1 ==> forall p :: p in d.files && p != src && p != dst ==> r.0.files[p] == d.files[p]
    ensures !r.1 ==> r.0 == d
    ensures r.0.dirs == d.dirs
    ensures WellFormed(d) ==> WellFormed(r.0)
  {
    if src in d.files && dst !in d.files && dst.dir in d.dirs then
      (Disk((d.files - {src})[dst := d.files[src]], d.dirs), true)
    else
      (d, false)
  }

  /** FileManager.removeItem(at:): fails when nothing is at the path. */
  function Remove(d: Disk, p: Path): (r: (Disk, bool))
    ensures r.1 <==> p in d.files
    ensures p !in r.0.files
    ensures forall q :: q != p ==> (q in r.0.files <==> q in d.files)
    ensures forall q :: q in d.files && q != p ==> r.0.files[q] == d.files[q]
    ensures r.0.dirs == d.dirs
    ensures WellFormed(d) ==> WellFormed(r.0)
  {
    if p in d.files then (Disk(d.files - {p}, d.dirs), true) else (d, false)
  }

  /**
   * FileManager.createFile(atPath:contents:nil): writes an empty file,
   * replacing any previous one; fails when the directory does not exist.
   */
  function CreateEmpty(d: Disk, p: Path): (r: (Disk, bool))
    ensures r.1 <==> p.dir in d.dirs
    ensures r.1 ==> p in r.0.files && r.0.files[p] == []
    ensures forall q :: q != p ==> (q in r.0.files <==> q in d.files)
    ensures forall q :: q in d.files && q != p ==> r.0.files[q] == d.files[q]
    ensures !r.1 ==> r.0 == d
    ensures r.0.dirs == d.dirs
    ensures WellFormed(d) ==> WellFormed(r.0)
  {
    if p.dir in d.dirs then (Disk(d.files[p := []], d.dirs), true) else (d, false)
  }

  /**
   * FileHandle.write at offset `at`: the bytes replace what lies there and
   * the file grows when they run past its end. An offset past the end is
   * taken as the end.
   */
  function WriteAt(content: seq<byte>, at: nat, data: seq<byte>): (r: seq<byte>)
    ensures at >= |content| ==> r == content + data
    ensures |r| == if at >= |content| then |content| + |data| else Max(|content|, at + |data|)
    ensures forall i :: 0 <= i < |content| && i < at ==> r[i] == content[i]
  {
    if at >= |content| then content + data
    else if at + |data| >= |content| then content[..at] + data
    else content[..at] + data + content[at + |data|..]
  }

  function Max(a: int, b: int): int { if a < b then b else a }

  /** An open write handle: the file it writes to and its current offset. */
  datatype Handle = Handle(path: Path, offset: nat)

  /** The platform's file system, shared by the destination and the uploader. */
  class FileSystem {
    var disk: Disk
    var handles: map<nat, Handle>
    var nextHandle: nat
    /** The handles synchronized to storage, in call order. */
    var syncLog: seq<nat>

    ghost predicate Valid()
      reads this
    {
      WellFormed(disk) && forall h :: h in handles ==> h < nextHandle
    }

    constructor (disk: Disk)
      requires WellFormed(disk)
      ensures Valid() && this.disk == disk && handles == map[] && syncLog == []
    {
      this.disk := disk;
      handles := map[];
      nextHandle := 0;
      syncLog := [];
    }

    function FileExists(p: Path): bool
      reads this
    {
      p in disk.files
    }

    method MoveItem(src: Path, dst: Path) returns (ok: bool)
      requires Valid()
      modifies this
      ensures Valid()
      ensures (disk, ok) == Move(old(disk), src, dst)
      ensures handles == old(handles) && nextHandle == old(nextHandle) && syncLog == old(syncLog)
    {
      var r := Move(disk, src, dst);
      disk, ok := r.0, r.1;
    }

    method RemoveItem(p: Path) returns (ok: bool)
      requires Valid()
      modifies this
      ensures Valid()
      ensures (disk, ok) == Remove(old(disk), p)
      ensures handles == old(handles) && nextHandle == old(nextHandle) && syncLog == old(syncLog)
    {
      var r := Remove(disk, p);
      disk, ok := r.0, r.1;
    }

    method CreateFile(p: Path) returns (ok: bool)
      requires Valid()
      modifies this
      ensures Valid()
      ensures (disk, ok) == CreateEmpty(old(disk), p)
      ensures handles == old(handles) && nextHandle == old(nextHandle) && syncLog == old(syncLog)
    {
      var r := CreateEmpty(disk, p);
      disk, ok := r.0, r.1;
    }

    /** FileHandle(forWritingTo:): fails when the file does not exist; a new handle starts at offset 0. */
    method OpenForWriting(p: Path) returns (h: Option<nat>)
      requires Valid()
      modifies this
      ensures Valid()
      ensures disk == old(disk) && syncLog == old(syncLog)
      ensures h.Some? <==> p in disk.files
      ensures h.Some? ==> h.value == old(nextHandle) && handles == old(handles)[h.value := Handle(p, 0)]
      ensures h.None? ==> handles == old(handles)
    {
      if p in disk.files {
        h := Some(nextHandle);
        handles := handles[nextHandle := Handle(p, 0)];
        nextHandle := nextHandle + 1;
      } else {
        h := None;
      }
    }

    method Synchronize(h: nat)
      requires Valid()
      modifies this
      ensures Valid()
      ensures disk == old(disk) && handles == old(handles) && nextHandle == old(nextHandle)
      ensures syncLog == old(syncLog) + [h]
    {
      syncLog := syncLog + [h];
    }

    method CloseHandle(h: nat)
      requires Valid()
      modifies this
      ensures Valid()
      ensures disk == old(disk) && syncLog == old(syncLog) && nextHandle == old(nextHandle)
      ensures handles == old(handles) - {h}
    {
      handles := handles - {h};
    }

    /** FileHandle.seekToEndOfFile(). */
    method SeekToEndOfFile(h: nat)
      requires Valid() && h in handles
      modifies this
      ensures Valid()
      ensures disk == old(disk) && syncLog == old(syncLog) && nextHandle == old(nextHandle)
      ensures handles == old(handles)[h := Handle(old(handles)[h].path, EndOf(disk, old(handles)[h].path))]
    {
      var p := handles[h].path;
      handles := handles[h := Handle(p, EndOf(disk, p))];
    }

    /**
     * FileHandle.write(_:): writes at the handle's offset and moves the offset
     * past the written bytes. Writing to a file no longer on disk is lost.
     */
    method Write(h: nat, data: seq<byte>)
      requires Valid() && h in handles
      modifies this
      ensures Valid()
      ensures syncLog == old(syncLog) && nextHandle == old(nextHandle)
      ensures disk.dirs == old(disk).dirs
      ensures var hd := old(handles)[h];
        disk.files == (if hd.path in old(disk).files
                       then old(disk).files[hd.path := WriteAt(old(disk).files[hd.path], hd.offset, data)]
                       else old(disk).files)
      ensures handles == old(handles)[h := Handle(old(handles)[h].path, old(handles)[h].offset + |data|)]
    {
      var hd := handles[h];
      if hd.path in disk.files {
        disk := Disk(disk.files[hd.path := WriteAt(disk.files[hd.path], hd.offset, data)], disk.dirs);
      }
      handles := handles[h := Handle(hd.path, hd.offset + |data|)];
    }
  }

  /** The length of the file at `p`, 0 when there is none. */
  function EndOf(d: Disk, p: Path): nat {
    if p in d.files then |d.files[p]| else 0
  }
}
