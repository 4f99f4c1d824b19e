/**
 * JSONDestination: writes each log record as its JSON encoding followed by a
 * comma at the end of the live file. No opening or closing bracket is ever
 * written, so the file is a run of comma-terminated records, not a JSON array.
 */
module JsonDestination {
  import W = Wrappers
  import opened Platform
  import opened CustomFileDestinations

  datatype Level = Verbose | Debug | Info | Warning | Error | Severe | None

  /** The encodable log record. */
  datatype Log = Log(
    level: W.Option<Level>,
    date: W.Option<int>,
    message: string,
    functionName: W.Option<string>,
    fileName: W.Option<string>,
    lineNumber: W.Option<int>,
    threadName: W.Option<string>,
    logIdentifier: W.Option<string>)

  /** The UTF-8 byte of ",". */
  const Comma: byte := 44

  /**
   * The live file's content after one output of a record whose encoding is
   * `json` (none when the encoder throws), through an open handle or none.
   */
  function AfterOutput(content: seq<byte>, handleOpen: bool, json: W.Option<seq<byte>>): (r: seq<byte>)
    ensures |content| <= |r| && r[..|content|] == content
    ensures r != content <==> handleOpen && json.Some?
    ensures handleOpen && json.Some? ==> r[|content|..] == json.value + [Comma]
  {
    if handleOpen && json.Some? then content + json.value + [Comma] else content
  }

  /** The content after outputting every record of `logs`, in order. */
  function AfterOutputs(content: seq<byte>, handleOpen: bool, logs: seq<Log>, encode: Log -> W.Option<seq<byte>>): seq<byte>
    decreases |logs|
  {
    if logs == [] then content
    else AfterOutputs(AfterOutput(content, handleOpen, encode(logs[0])), handleOpen, logs[1..], encode)
  }

  /** Each encoding followed by a comma, concatenated in order. */
  function Framed(encodings: seq<seq<byte>>): seq<byte> {
    if encodings == [] then [] else encodings[0] + [Comma] + Framed(encodings[1..])
  }

  predicate AllEncode(logs: seq<Log>, encode: Log -> W.Option<seq<byte>>) {
    forall i :: 0 <= i < |logs| ==> encode(logs[i]).Some?
  }

  /** The encodings of records that all encode. */
  function Encodings(logs: seq<Log>, encode: Log -> W.Option<seq<byte>>): (r: seq<seq<byte>>)
    requires AllEncode(logs, encode)
    ensures |r| == |logs|
    ensures forall i :: 0 <= i < |logs| ==> W.Some(r[i]) == encode(logs[i])
  {
    seq(|logs|, i requires 0 <= i < |logs| => encode(logs[i]).value)
  }

  /** Outputs never rewrite what the file already holds: the old content is a prefix of the new. */
  lemma {:induction false} OutputsOnlyAppend(content: seq<byte>, handleOpen: bool, logs: seq<Log>, encode: Log -> W.Option<seq<byte>>)
    ensures var r := AfterOutputs(content, handleOpen, logs, encode); |content| <= |r| && r[..|content|] == content
    decreases |logs|
  {
    if logs != [] {
      var next := AfterOutput(content, handleOpen, encode(logs[0]));
      OutputsOnlyAppend(next, handleOpen, logs[1..], encode);
      var r := AfterOutputs(content, handleOpen, logs, encode);
      assert r[..|content|] == r[..|next|][..|content|];
    }
  }

  /**
   * After outputs through an open handle of records that all encode, the file
   * is its old content followed by every encoding, each closed by a comma, in
   * call order.
   */
  lemma {:induction false} OutputsAreFramed(content: seq<byte>, logs: seq<Log>, encode: Log -> W.Option<seq<byte>>)
    requires AllEncode(logs, encode)
    ensures AfterOutputs(content, true, logs, encode) == content + Framed(Encodings(logs, encode))
    decreases |logs|
  {
    if logs != [] {
      var e := encode(logs[0]).value;
      assert AllEncode(logs[1..], encode) by {
        forall i | 0 <= i < |logs[1..]| ensures encode(logs[1..][i]).Some? {
          assert logs[1..][i] == logs[i + 1];
        }
      }
      OutputsAreFramed(content + e + [Comma], logs[1..], encode);
      assert Encodings(logs, encode)[1..] == Encodings(logs[1..], encode);
      assert Encodings(logs, encode)[0] == e;
    }
  }

  /** Without a handle, outputs leave the file as it was. */
  lemma {:induction false} ClosedOutputsChangeNothing(content: seq<byte>, logs: seq<Log>, encode: Log -> W.Option<seq<byte>>)
    ensures AfterOutputs(content, false, logs, encode) == content
    decreases |logs|
  {
    if logs != [] {
      ClosedOutputsChangeNothing(content, logs[1..], encode);
    }
  }

  /**
   * A non-empty framed run always ends with a comma, never with "]": by
   * itself the file is not a JSON array, whatever the encodings are.
   */
  lemma {:induction false} FramedEndsWithComma(encodings: seq<seq<byte>>)
    requires encodings != []
    ensures |Framed(encodings)| > 0 && Framed(encodings)[|Framed(encodings)| - 1] == Comma
    decreases |encodings|
  {
    if |encodings| > 1 {
      FramedEndsWithComma(encodings[1..]);
    }
  }

  /** The framed run holds exactly one comma terminator per record: its length is the encodings' plus one each. */
  lemma {:induction false} FramedLength(encodings: seq<seq<byte>>)
    ensures |Framed(encodings)| == TotalLength(encodings) + |encodings|
    decreases |encodings|
  {
    if encodings != [] {
      FramedLength(encodings[1..]);
    }
  }

  function TotalLength(encodings: seq<seq<byte>>): nat {
    if encodings == [] then 0 else |encodings[0]| + TotalLength(encodings[1..])
  }

  /**
   * output(log:): seek the handle to the end of the file, encode the record
   * and write the encoding and a comma; when the encoder throws nothing is
   * written and the owner is told. Without a handle the file is untouched.
   */
  method Output(d: CustomFileDestination, log: Log, encode: Log -> W.Option<seq<byte>>)
    requires d.Valid()
    modifies d`notices, d.fs
    ensures d.Valid()
    ensures d.fs.disk.dirs == old(d.fs.disk.dirs) && d.fs.handles.Keys == old(d.fs.handles.Keys)
    ensures d.fs.syncLog == old(d.fs.syncLog) && d.fs.nextHandle == old(d.fs.nextHandle)
    ensures d.fs.disk.files ==
      if d.fileURL in old(d.fs.disk.files)
      then old(d.fs.disk.files)[d.fileURL := AfterOutput(old(d.fs.disk.files)[d.fileURL], d.logFileHandle.Some?, encode(log))]
      else old(d.fs.disk.files)
    ensures d.notices ==
      if encode(log).None? && d.hasOwner then old(d.notices) + [EncodingFailed(d.identifier)] else old(d.notices)
  {
    var h := d.logFileHandle;
    if h.Some? {
      d.fs.SeekToEndOfFile(h.value);
    }
    var json := encode(log);
    if json.None? {
      d.Notify(EncodingFailed(d.identifier));
      assert d.fileURL in old(d.fs.disk.files) ==> old(d.fs.disk.files)[d.fileURL := old(d.fs.disk.files)[d.fileURL]] == old(d.fs.disk.files);
      return;
    }
    if h.Some? {
      d.fs.Write(h.value, json.value);
      d.fs.Write(h.value, [Comma]);
    } else {
      assert d.fileURL in old(d.fs.disk.files) ==> old(d.fs.disk.files)[d.fileURL := old(d.fs.disk.files)[d.fileURL]] == old(d.fs.disk.files);
    }
  }
}
