/** Moving a savefile in pieces: the browser's upload (dashboard2.component.ts), the agent's file
    writes (src/agent/util/saves.rs) and the download (src/agent/main.rs, routes/download.rs). */
module SaveTransfer {
  import opened Basics
  import opened OperationTrace

  newtype Byte = x: int | 0 <= x < 256

  const UPLOAD_CHUNK: nat := 2_000_000
  const MAX_WS_PAYLOAD_BYTES: nat := 8_000_000

  /** A piece of a savefile; a piece without bytes is the sentinel that fixes the length. */
  datatype SaveBytes = SaveBytes(multipartStart: Option<nat>, bytes: seq<Byte>) {
    predicate IsSentinel() { |bytes| == 0 }
  }

  function Sentinel(totalLength: nat): SaveBytes { SaveBytes(Some(totalLength), []) }

  // ---- Splitting -------------------------------------------------------------------------

  function ChunkEnd(size: nat, start: nat, n: nat): (end: nat)
    requires start <= size
    ensures start <= end <= size
  {
    if start + n <= size then start + n else size
  }

  /** The non-empty pieces of `data` from `start` on, each of `n` bytes but the last. */
  function Chunks(data: seq<Byte>, start: nat, n: nat): seq<SaveBytes>
    requires start <= |data| && n >= 1
    decreases |data| - start
  {
    if start == |data| then []
    else
      var end := ChunkEnd(|data|, start, n);
      [SaveBytes(Some(start), data[start..end])] + Chunks(data, end, n)
  }

  /** All messages of a transfer. */
  function Plan(data: seq<Byte>, n: nat): seq<SaveBytes>
    requires n >= 1
  {
    Chunks(data, 0, n) + [Sentinel(|data|)]
  }

  /** The loop of `uploadSavefile`: requests in the order they are sent. */
  method UploadSavefile(data: seq<Byte>) returns (requests: seq<SaveBytes>)
    ensures requests == Plan(data, UPLOAD_CHUNK)
  {
    var totalSize := |data|;
    var offset := 0;
    requests := [];
    while offset <= totalSize
      invariant 0 <= offset <= totalSize
      invariant requests + Chunks(data, offset, UPLOAD_CHUNK) == Chunks(data, 0, UPLOAD_CHUNK)
      decreases totalSize - offset
    {
      var currentChunkSize := if UPLOAD_CHUNK <= totalSize - offset then UPLOAD_CHUNK else totalSize - offset;
      if currentChunkSize == 0 {
        requests := requests + [Sentinel(offset)];
        return;
      }
      requests := requests + [SaveBytes(Some(offset), data[offset..offset + currentChunkSize])];
      offset := offset + currentChunkSize;
    }
  }

  predicate IsChunkOf(data: seq<Byte>, m: SaveBytes, n: nat)
  {
    m.multipartStart.Some? &&
    var start := m.multipartStart.value;
    start + |m.bytes| <= |data| && 0 < |m.bytes| <= n && m.bytes == data[start..start + |m.bytes|]
  }

  predicate Covers(m: SaveBytes, i: nat)
  {
    m.multipartStart.Some? && m.multipartStart.value <= i < m.multipartStart.value + |m.bytes|
  }

  lemma {:induction false} ChunkMember(data: seq<Byte>, start: nat, n: nat, m: SaveBytes)
    requires start <= |data| && n >= 1 && m in Chunks(data, start, n)
    ensures IsChunkOf(data, m, n) && start <= m.multipartStart.value
    decreases |data| - start
  {
    var end := ChunkEnd(|data|, start, n);
    if m != SaveBytes(Some(start), data[start..end]) {
      ChunkMember(data, end, n, m);
    }
  }

  /** Each byte of the data lies in exactly one piece. */
  lemma {:induction false} ChunkOfByte(data: seq<Byte>, start: nat, n: nat, i: nat) returns (m: SaveBytes)
    requires start <= i < |data| && n >= 1
    ensures m in Chunks(data, start, n) && Covers(m, i)
    ensures forall k :: k in Chunks(data, start, n) && Covers(k, i) ==> k == m
    decreases |data| - start
  {
    var end := ChunkEnd(|data|, start, n);
    var first := SaveBytes(Some(start), data[start..end]);
    if i < end {
      m := first;
      forall k | k in Chunks(data, end, n) ensures !Covers(k, i) { ChunkMember(data, end, n, k); }
    } else {
      m := ChunkOfByte(data, end, n, i);
    }
  }

  function Concat(parts: seq<seq<Byte>>): seq<Byte>
  {
    if parts == [] then [] else parts[0] + Concat(parts[1..])
  }

  function Payloads(ms: seq<SaveBytes>): (parts: seq<seq<Byte>>)
    ensures |parts| == |ms|
  {
    seq(|ms|, i requires 0 <= i < |ms| => ms[i].bytes)
  }

  /** In order, the pieces are the data. */
  lemma {:induction false} ChunksConcat(data: seq<Byte>, start: nat, n: nat)
    requires start <= |data| && n >= 1
    ensures Concat(Payloads(Chunks(data, start, n))) == data[start..]
    decreases |data| - start
  {
    if start < |data| {
      var end := ChunkEnd(|data|, start, n);
      ChunksConcat(data, end, n);
      var ms := Chunks(data, start, n);
      assert Payloads(ms)[1..] == Payloads(Chunks(data, end, n));
      assert data[start..] == data[start..end] + data[end..];
    }
  }

  /** What the browser sends: non-empty pieces of at most `n` bytes that partition the file, and
      exactly one sentinel, last, at the offset equal to the size. */
  lemma PlanPartitions(data: seq<Byte>, n: nat)
    requires n >= 1
    ensures var plan := Plan(data, n);
      var last := |plan| - 1;
      && plan[last] == Sentinel(|data|)
      && (forall k :: 0 <= k < last ==> IsChunkOf(data, plan[k], n))
      && Concat(Payloads(plan[..last])) == data
  {
    var chunks := Chunks(data, 0, n);
    forall k | 0 <= k < |chunks| ensures IsChunkOf(data, chunks[k], n) { ChunkMember(data, 0, n, chunks[k]); }
    ChunksConcat(data, 0, n);
    assert Plan(data, n)[..|chunks|] == chunks;
    assert data[0..] == data;
  }

  /** No message is larger than its carrier allows. */
  lemma PiecesFit(data: seq<Byte>)
    ensures forall m :: m in Plan(data, UPLOAD_CHUNK) ==> |m.bytes| <= 2_000_000
    ensures forall m :: m in Plan(data, MAX_WS_PAYLOAD_BYTES) ==> |m.bytes| <= 8_000_000
  {
    forall m, n: nat | n >= 1 && m in Plan(data, n) ensures |m.bytes| <= n {
      if m != Sentinel(|data|) { ChunkMember(data, 0, n, m); }
    }
  }

  // ---- Writing on the agent --------------------------------------------------------------

  function Zeros(n: nat): (z: seq<Byte>)
    ensures |z| == n
  {
    seq(n, _ => 0)
  }

  /** `File::set_len`: cut, or extend with zeros. */
  function SetLength(content: seq<Byte>, n: nat): (r: seq<Byte>)
    ensures |r| == n
  {
    if n <= |content| then content[..n] else content + Zeros(n - |content|)
  }

  /** Seek and write: a gap past the end reads as zeros, what lies behind the bytes stays. */
  function WriteAt(content: seq<Byte>, start: nat, bytes: seq<Byte>): seq<Byte>
  {
    var base := if |content| < start then SetLength(content, start) else content;
    base[..start] + bytes + (if start + |bytes| < |base| then base[start + |bytes|..] else [])
  }

  /** What one message does to the content of its file. */
  function Applied(content: seq<Byte>, m: SaveBytes): seq<Byte>
  {
    match m.multipartStart
    case None => m.bytes
    case Some(start) => if m.IsSentinel() then SetLength(content, start) else WriteAt(content, start, m.bytes)
  }

  type Files = map<string, seq<Byte>>

  /** A message and the save it is for. */
  datatype Arrival = Arrival(name: string, m: SaveBytes)

  /** What was in a save before; a save is created empty. */
  function Before(files: Files, name: string): seq<Byte> { if name in files then files[name] else [] }

  /** What one message does to the directory. */
  function Stored(files: Files, a: Arrival): Files { files[a.name := Applied(Before(files, a.name), a.m)] }

  /** The save directory: file contents by save name. */
  class SaveDirectory {
    var files: Files

    constructor ()
      ensures files == map[]
    {
      files := map[];
    }

    /** `set_savefile`: the file is created when missing and changed in place otherwise. */
    method SetSavefile(name: string, savebytes: SaveBytes)
      modifies this
      ensures files == Stored(old(files), Arrival(name, savebytes))
    {
      if savebytes.multipartStart.Some? {
        var start := savebytes.multipartStart.value;
        if name !in files {
          files := files[name := []];
        }
        if savebytes.IsSentinel() {
          files := files[name := SetLength(files[name], start)];
        } else {
          files := files[name := WriteAt(files[name], start, savebytes.bytes)];
        }
      } else {
        files := files[name := savebytes.bytes];
      }
    }

    /** `get_savefile`. */
    method GetSavefile(name: string) returns (found: Option<SaveBytes>)
      ensures found == if name in files then Some(SaveBytes(None, files[name])) else None
    {
      if name in files {
        return Some(SaveBytes(None, files[name]));
      }
      return None;
    }
  }

  function AppliedAll(content: seq<Byte>, ms: seq<SaveBytes>): seq<Byte>
  {
    if ms == [] then content else Applied(AppliedAll(content, ms[..|ms| - 1]), ms[|ms| - 1])
  }

  lemma WriteAtBytes(content: seq<Byte>, start: nat, bytes: seq<Byte>, i: nat)
    ensures i < |WriteAt(content, start, bytes)| <==> i < |content| || i < start + |bytes|
    ensures start <= i < start + |bytes| ==> WriteAt(content, start, bytes)[i] == bytes[i - start]
    ensures i < |content| && !(start <= i < start + |bytes|) ==> WriteAt(content, start, bytes)[i] == content[i]
    ensures |content| <= i < start ==> WriteAt(content, start, bytes)[i] == 0
  {
  }

  /** A message without an offset replaces its file, one without bytes sets the length, with zeros for
      what is missing. */
  lemma WholeAndLength(files: Files, name: string, bytes: seq<Byte>, n: nat)
    ensures Stored(files, Arrival(name, SaveBytes(None, bytes))) == files[name := bytes]
    ensures var content := Stored(files, Arrival(name, Sentinel(n)))[name];
      |content| == n && forall i :: 0 <= i < n ==>
        content[i] == if i < |Before(files, name)| then Before(files, name)[i] else 0
  {
  }

  /** Byte `i` is right once a piece covering it has arrived, and nothing in the plan spoils it. */
  lemma {:induction false} ByteArrives(previous: seq<Byte>, data: seq<Byte>, n: nat, ms: seq<SaveBytes>, i: nat)
    requires n >= 1 && i < |data|
    requires forall m :: m in ms ==> m in Plan(data, n)
    requires exists m :: m in ms && Covers(m, i)
    ensures i < |AppliedAll(previous, ms)| && AppliedAll(previous, ms)[i] == data[i]
    decreases |ms|
  {
    var m, rest := ms[|ms| - 1], ms[..|ms| - 1];
    var content := AppliedAll(previous, rest);
    assert m in ms;
    if m != Sentinel(|data|) {
      ChunkMember(data, 0, n, m);
      WriteAtBytes(content, m.multipartStart.value, m.bytes, i);
    }
    if !Covers(m, i) {
      var k :| k in ms && Covers(k, i);
      assert k in rest;
      ByteArrives(previous, data, n, rest, i);
    }
  }

  /** Once the sentinel has arrived the length is right and stays right. */
  lemma {:induction false} LengthSettles(previous: seq<Byte>, data: seq<Byte>, n: nat, ms: seq<SaveBytes>)
    requires n >= 1
    requires forall m :: m in ms ==> m in Plan(data, n)
    requires Sentinel(|data|) in ms
    ensures |AppliedAll(previous, ms)| == |data|
    decreases |ms|
  {
    var m, rest := ms[|ms| - 1], ms[..|ms| - 1];
    assert m in ms;
    if m != Sentinel(|data|) {
      ChunkMember(data, 0, n, m);
      LengthSettles(previous, data, n, rest);
    }
  }

  /** Messages of one upload, in any order and with repeats, the sentinel anywhere among them. */
  ghost predicate Complete(data: seq<Byte>, n: nat, ms: seq<SaveBytes>)
    requires n >= 1
  {
    forall m :: m in Plan(data, n) ==> m in ms
  }

  lemma UploadArrives(previous: seq<Byte>, data: seq<Byte>, n: nat, ms: seq<SaveBytes>)
    requires n >= 1 && Complete(data, n, ms)
    requires forall m :: m in ms ==> m in Plan(data, n)
    ensures AppliedAll(previous, ms) == data
  {
    assert Sentinel(|data|) in Plan(data, n);
    LengthSettles(previous, data, n, ms);
    forall i | 0 <= i < |data| ensures AppliedAll(previous, ms)[i] == data[i] {
      var m := ChunkOfByte(data, 0, n, i);
      assert m in Plan(data, n);
      ByteArrives(previous, data, n, ms, i);
    }
  }

  // ---- Every message is needed -----------------------------------------------------------

  /** A byte that no arrived piece covers keeps its previous value. */
  lemma {:induction false} ByteStays(previous: seq<Byte>, data: seq<Byte>, n: nat, ms: seq<SaveBytes>, i: nat)
    requires n >= 1 && |previous| == |data| && i < |data|
    requires forall m :: m in ms ==> m in Plan(data, n) && !Covers(m, i)
    ensures |AppliedAll(previous, ms)| == |data| && AppliedAll(previous, ms)[i] == previous[i]
    decreases |ms|
  {
    if ms != [] {
      var m, rest := ms[|ms| - 1], ms[..|ms| - 1];
      assert m in ms;
      ByteStays(previous, data, n, rest, i);
      if m != Sentinel(|data|) {
        ChunkMember(data, 0, n, m);
        WriteAtBytes(AppliedAll(previous, rest), m.multipartStart.value, m.bytes, i);
      }
    }
  }

  lemma {:induction false} TailStays(previous: seq<Byte>, data: seq<Byte>, n: nat, ms: seq<SaveBytes>)
    requires n >= 1 && |previous| > |data|
    requires forall m :: m in ms ==> m in Plan(data, n) && m != Sentinel(|data|)
    ensures |AppliedAll(previous, ms)| == |previous|
    decreases |ms|
  {
    if ms != [] {
      var m, rest := ms[|ms| - 1], ms[..|ms| - 1];
      assert m in ms;
      TailStays(previous, data, n, rest);
      ChunkMember(data, 0, n, m);
    }
  }

  ghost predicate AlwaysYields(data: seq<Byte>, ms: seq<SaveBytes>)
  {
    forall previous :: AppliedAll(previous, ms) == data
  }

  /** Messages of an upload leave exactly the data whatever the file held before if and only if
      every piece and the sentinel are among them; order and repeats do not matter. */
  lemma UploadIsExactWhen(data: seq<Byte>, n: nat, ms: seq<SaveBytes>)
    requires n >= 1
    requires forall m :: m in ms ==> m in Plan(data, n)
    ensures AlwaysYields(data, ms) <==> Complete(data, n, ms)
  {
    if Complete(data, n, ms) {
      forall previous ensures AppliedAll(previous, ms) == data { UploadArrives(previous, data, n, ms); }
    } else {
      var lost :| lost in Plan(data, n) && lost !in ms;
      if lost == Sentinel(|data|) {
        TailStays(data + [0], data, n, ms);
        assert AppliedAll(data + [0], ms) != data;
      } else {
        ChunkMember(data, 0, n, lost);
        var i := lost.multipartStart.value;
        var only := ChunkOfByte(data, 0, n, i);
        assert only == lost;
        forall m | m in ms ensures !Covers(m, i) {
          assert m in Plan(data, n);
        }
        var previous := data[i := if data[i] == 0 then 1 else 0];
        ByteStays(previous, data, n, ms, i);
        assert AppliedAll(previous, ms) != data;
      }
    }
  }

  // ---- Several uploads at once -----------------------------------------------------------

  function StoredAll(files: Files, arrivals: seq<Arrival>): Files
  {
    if arrivals == [] then files
    else Stored(StoredAll(files, arrivals[..|arrivals| - 1]), arrivals[|arrivals| - 1])
  }

  /** The messages for save `name`, in order of arrival. */
  function For(arrivals: seq<Arrival>, name: string): seq<SaveBytes>
  {
    if arrivals == [] then []
    else
      var last := arrivals[|arrivals| - 1];
      For(arrivals[..|arrivals| - 1], name) + if last.name == name then [last.m] else []
  }

  lemma {:induction false} ForMember(arrivals: seq<Arrival>, name: string, m: SaveBytes)
    ensures m in For(arrivals, name) <==> Arrival(name, m) in arrivals
  {
    if arrivals != [] {
      var rest, last := arrivals[..|arrivals| - 1], arrivals[|arrivals| - 1];
      ForMember(rest, name, m);
      assert arrivals == rest + [last];
    }
  }

  /** Messages for different saves do not meet: each save ends as its own messages alone leave it. */
  lemma {:induction false} SavesAreSeparate(files: Files, arrivals: seq<Arrival>, name: string)
    ensures name in StoredAll(files, arrivals) <==> name in files || For(arrivals, name) != []
    ensures Before(StoredAll(files, arrivals), name) == AppliedAll(Before(files, name), For(arrivals, name))
  {
    if arrivals != [] {
      var rest, last := arrivals[..|arrivals| - 1], arrivals[|arrivals| - 1];
      SavesAreSeparate(files, rest, name);
      var ms := For(rest, name);
      if last.name == name { assert (ms + [last.m])[..|ms|] == ms; } else { assert For(arrivals, name) == ms; }
    }
  }

  /** All messages of these uploads have arrived and no others. */
  ghost predicate AllArrived(uploads: Files, n: nat, arrivals: seq<Arrival>)
    requires n >= 1
  {
    && (forall a :: a in arrivals ==> a.name in uploads && a.m in Plan(uploads[a.name], n))
    && (forall name, m :: name in uploads && m in Plan(uploads[name], n) ==> Arrival(name, m) in arrivals)
  }

  /** Any number of uploads to different saves, their messages in any interleaving, in any order
      and with repeats, leave the directory with each of the uploaded saves and nothing else
      changed. */
  lemma UploadsDoNotMeet(files: Files, uploads: Files, n: nat, arrivals: seq<Arrival>)
    requires n >= 1 && AllArrived(uploads, n, arrivals)
    ensures StoredAll(files, arrivals) == files + uploads
  {
    forall name
      ensures name in StoredAll(files, arrivals) <==> name in files + uploads
      ensures Before(StoredAll(files, arrivals), name) == Before(files + uploads, name)
    {
      SavesAreSeparate(files, arrivals, name);
      var ms := For(arrivals, name);
      forall m ensures m in ms <==> Arrival(name, m) in arrivals { ForMember(arrivals, name, m); }
      if ms != [] { assert ms[0] in ms && name in uploads; }
      if name in uploads {
        assert Sentinel(|uploads[name]|) in Plan(uploads[name], n);
        UploadArrives(Before(files, name), uploads[name], n, ms);
      }
    }
    assert forall name :: name in files + uploads ==> Before(files + uploads, name) == (files + uploads)[name];
    assert forall name :: name in StoredAll(files, arrivals) ==>
      Before(StoredAll(files, arrivals), name) == StoredAll(files, arrivals)[name];
  }

  // ---- Downloading -----------------------------------------------------------------------

  datatype Content = SaveFile(savebytes: SaveBytes) | Accepted | SaveNotFound

  datatype Reply = Reply(status: Status, content: Content)

  function Statuses(replies: seq<Reply>): (t: seq<Status>)
    ensures |t| == |replies|
  {
    seq(|replies|, i requires 0 <= i < |replies| => replies[i].status)
  }

  function OngoingPieces(ms: seq<SaveBytes>): (replies: seq<Reply>)
    ensures |replies| == |ms|
  {
    seq(|ms|, i requires 0 <= i < |ms| => Reply(Ongoing, SaveFile(ms[i])))
  }

  function Download(data: seq<Byte>, n: nat): seq<Reply>
    requires n >= 1
  {
    [Reply(Ack, Accepted)] + OngoingPieces(Chunks(data, 0, n)) + [Reply(Completed, SaveFile(Sentinel(|data|)))]
  }

  /** `save_get`: the replies it sends, in order. */
  method SaveGet(saves: SaveDirectory, name: string) returns (replies: seq<Reply>)
    ensures replies == if name in saves.files then Download(saves.files[name], MAX_WS_PAYLOAD_BYTES)
                       else [Reply(Failed, SaveNotFound)]
  {
    var found := saves.GetSavefile(name);
    if found.None? {
      return [Reply(Failed, SaveNotFound)];
    }
    var data := found.value.bytes;
    replies := [Reply(Ack, Accepted)];
    var i := 0;
    while i < |data|
      invariant 0 <= i <= |data|
      invariant replies + OngoingPieces(Chunks(data, i, MAX_WS_PAYLOAD_BYTES))
             == [Reply(Ack, Accepted)] + OngoingPieces(Chunks(data, 0, MAX_WS_PAYLOAD_BYTES))
    {
      var chunk := data[i..ChunkEnd(|data|, i, MAX_WS_PAYLOAD_BYTES)];
      ghost var rest := Chunks(data, i + |chunk|, MAX_WS_PAYLOAD_BYTES);
      assert Chunks(data, i, MAX_WS_PAYLOAD_BYTES) == [SaveBytes(Some(i), chunk)] + rest;
      assert OngoingPieces([SaveBytes(Some(i), chunk)] + rest)
          == [Reply(Ongoing, SaveFile(SaveBytes(Some(i), chunk)))] + OngoingPieces(rest);
      replies := replies + [Reply(Ongoing, SaveFile(SaveBytes(Some(i), chunk)))];
      i := i + |chunk|;
    }
    replies := replies + [Reply(Completed, SaveFile(Sentinel(i)))];
  }

  /** `save_get` answers with a finished trace, acknowledged exactly when the save exists. */
  lemma DownloadIsFinished(data: seq<Byte>, n: nat)
    requires n >= 1
    ensures Finished(Statuses(Download(data, n))) && Opened(Statuses(Download(data, n))[..|Download(data, n)| - 1])
  {
    var t := Statuses(Download(data, n));
    var open := t[..|t| - 1];
    assert open[0] == Ack;
  }

  /** `download_save`: the bytes of every piece that is not a sentinel; other events are dropped. */
  function DownloadSave(replies: seq<Reply>): seq<seq<Byte>>
  {
    if replies == [] then []
    else
      var rest := DownloadSave(replies[1..]);
      match replies[0].content
      case SaveFile(sb) => if sb.IsSentinel() then rest else [sb.bytes] + rest
      case Accepted => rest
      case SaveNotFound => rest
  }

  lemma {:induction false} DownloadPieces(data: seq<Byte>, start: nat, n: nat)
    requires start <= |data| && n >= 1
    ensures DownloadSave(OngoingPieces(Chunks(data, start, n)) + [Reply(Completed, SaveFile(Sentinel(|data|)))])
         == Payloads(Chunks(data, start, n))
    decreases |data| - start
  {
    var last := [Reply(Completed, SaveFile(Sentinel(|data|)))];
    if start == |data| {
      assert OngoingPieces([]) + last == last;
      assert DownloadSave(last[1..]) == [];
    } else {
      var end := ChunkEnd(|data|, start, n);
      var rest := Chunks(data, end, n);
      DownloadPieces(data, end, n);
      var replies := OngoingPieces(Chunks(data, start, n)) + last;
      assert replies[1..] == OngoingPieces(rest) + last;
      assert Payloads(Chunks(data, start, n)) == [data[start..end]] + Payloads(rest);
    }
  }

  /** What the reassembled stream of a download carries is the data. */
  lemma DownloadGives(data: seq<Byte>, k: nat)
    requires k >= 1
    ensures Concat(DownloadSave(Download(data, k)[1..])) == data
  {
    DownloadPieces(data, 0, k);
    ChunksConcat(data, 0, k);
    assert data[0..] == data;
    assert Download(data, k)[1..]
        == OngoingPieces(Chunks(data, 0, k)) + [Reply(Completed, SaveFile(Sentinel(|data|)))];
  }

  /** Uploading in any order and with repeats over any previous file, then downloading through
      the stream the client keeps after the acknowledgement, gives back the same bytes. */
  lemma UploadThenDownload(previous: seq<Byte>, data: seq<Byte>, n: nat, ms: seq<SaveBytes>, k: nat)
    requires n >= 1 && k >= 1 && Complete(data, n, ms)
    requires forall m :: m in ms ==> m in Plan(data, n)
    ensures Concat(DownloadSave(Download(AppliedAll(previous, ms), k)[1..])) == data
  {
    UploadArrives(previous, data, n, ms);
    DownloadGives(data, k);
  }

  /** Any number of uploads, their messages interleaved in any way: each save is then downloaded as it
      was uploaded, and every save that was not uploaded as it was before. */
  lemma UploadsThenDownloads(files: Files, uploads: Files, n: nat, arrivals: seq<Arrival>, k: nat)
    requires n >= 1 && k >= 1 && AllArrived(uploads, n, arrivals)
    ensures var after := StoredAll(files, arrivals);
      && after.Keys == files.Keys + uploads.Keys
      && forall name :: name in after ==>
           Concat(DownloadSave(Download(after[name], k)[1..])) == if name in uploads then uploads[name] else files[name]
  {
    UploadsDoNotMeet(files, uploads, n, arrivals);
    var after := StoredAll(files, arrivals);
    forall name | name in after ensures Concat(DownloadSave(Download(after[name], k)[1..])) == after[name] {
      DownloadGives(after[name], k);
    }
  }
}
