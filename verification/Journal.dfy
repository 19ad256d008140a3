/**
 The host's crash-durable journal and the rollback runner's capture, over module DurableFiles.

 Every system call may fail. Every disk state a call leaves behind is appended to `trace`: a
 crash at any instruction is a helper that stops at, or a power loss in, one of those states.
 */
module Journal {
  import opened Wrappers
  import opened DurableFiles
  import TaskIdentity

  function TemporaryName(path: string): (t: string)
    ensures IsTemporary(t) && t != path
  {
    path + ".tmp"
  }

  /** What a write to `path` never changes: how any other name reads, now and after a power loss. */
  ghost predicate OthersKept(d: Disk, e: Disk, path: string)
  {
    forall name :: name != path && name != TemporaryName(path) ==> Kept(d, e, name)
  }

  /** A state a write of `payload` to `path` may stop in. */
  ghost predicate Reached(d: Disk, e: Disk, path: string, before: set<Option<Bytes>>, payload: Bytes)
  {
    Valid(e) && CrashSafe(e, path, before + {Some(payload)}) && OthersKept(d, e, path)
  }

  /** From `d` to `e` only the temporary file of `path` was worked on. */
  ghost predicate Staged(d: Disk, e: Disk, path: string)
  {
    Valid(e) && forall name :: name != TemporaryName(path) ==> Kept(d, e, name)
  }

  lemma StagedTwice(d: Disk, e: Disk, f: Disk, path: string)
    requires Staged(d, e, path) && Staged(e, f, path)
    ensures Staged(d, f, path)
  {
    forall name | name != TemporaryName(path) ensures Kept(d, f, name) {
      assert Kept(d, e, name) && Kept(e, f, name);
    }
  }

  lemma StagedIsReached(d: Disk, e: Disk, path: string, before: set<Option<Bytes>>, payload: Bytes)
    requires Staged(d, e, path) && CrashSafe(d, path, before)
    ensures Reached(d, e, path, before, payload)
  {
    assert Kept(d, e, path);
    WiderIsSafe(e, path, before, before + {Some(payload)});
  }

  lemma ReachedAndKept(d: Disk, e: Disk, f: Disk, path: string, before: set<Option<Bytes>>, payload: Bytes)
    requires Reached(d, e, path, before, payload) && Valid(f) && forall name :: Kept(e, f, name)
    ensures Reached(d, f, path, before, payload)
  {
    assert Kept(e, f, path);
    forall name | name != path && name != TemporaryName(path) ensures Kept(d, f, name) {
      assert Kept(d, e, name) && Kept(e, f, name);
    }
  }

  /** `e` differs from `d` only in the data of the visible temporary file. */
  ghost predicate TemporaryDiffers(d: Disk, e: Disk, path: string)
  {
    var t := TemporaryName(path);
    && Valid(e) && t in d.dir && d.dir[t] in d.inodes && d.dir[t] in e.inodes
    && e == d.(inodes := d.inodes[d.dir[t] := e.inodes[d.dir[t]]])
  }

  lemma TemporaryDiffersKeeps(d: Disk, e: Disk, path: string)
    requires Valid(d) && TemporaryDiffers(d, e, path)
    ensures Staged(d, e, path)
  {
    var t := TemporaryName(path);
    var inode := e.inodes[d.dir[t]];
    assert e == SetInode(d, d.dir[t], inode.data, inode.flushed);
    forall name | name != t ensures Kept(d, e, name) {
      TemporaryDataKeeps(d, t, inode.data, inode.flushed, name);
    }
  }

  /** The effect of `open(path + ".tmp", O_WRONLY | O_CREAT | O_TRUNC)`; a new file gets number `ino`. */
  function Opened(d: Disk, path: string, ino: nat): Disk
  {
    var t := TemporaryName(path);
    if t in d.dir then SetInode(d, d.dir[t], [], false) else Perform(SetInode(d, ino, [], false), Link(t, ino))
  }

  lemma OpenedIsStaged(d: Disk, path: string, ino: nat)
    requires Valid(d) && (TemporaryName(path) in d.dir || ino !in d.inodes)
    ensures Staged(d, Opened(d, path, ino), path)
  {
    var t := TemporaryName(path);
    if t in d.dir {
      TemporaryDataKeeps(d, t, [], false, path);
      forall name | name != t { TemporaryDataKeeps(d, t, [], false, name); }
    } else {
      LinkKeeps(d, t, ino, path);
      forall name | name != t { LinkKeeps(d, t, ino, name); }
    }
  }

  /**
   The temporary name is shared by all writers of a record. When a second writer opens it between
   the first one's fsync and rename, the record of the first becomes an empty file, in view at
   once, and no directory fsync makes its content safe again.
   */
  lemma SharedTemporaryTears(d: Disk, path: string, ino: nat, payload: Bytes)
    requires Valid(d) && !IsTemporary(path) && (TemporaryName(path) in d.dir || ino !in d.inodes)
    ensures var t := TemporaryName(path);
            var first := Opened(d, path, ino);
            var written := SetInode(first, first.dir[t], payload, true);
            var second := Opened(written, path, ino + 1);
            var renamed := Perform(second, Move(t, path, second.dir[t]));
            Read(renamed, path) == Some([]) && forall allowed :: !CrashSafe(FsyncDirectory(renamed), path, allowed)
  {
    var t := TemporaryName(path);
    var first := Opened(d, path, ino);
    var written := SetInode(first, first.dir[t], payload, true);
    var second := Opened(written, path, ino + 1);
    var renamed := Perform(second, Move(t, path, second.dir[t]));
    forall allowed ensures !CrashSafe(FsyncDirectory(renamed), path, allowed) {
      assert !SafeIn(FsyncDirectory(renamed), renamed.dir, path, allowed);
    }
  }

  /** The number of a file nobody uses. */
  method FreshInode(inodes: map<nat, Inode>) returns (i: nat)
    ensures i !in inodes
  {
    i := 0;
    var rest := inodes.Keys;
    while rest != {}
      invariant forall x :: x in inodes && x !in rest ==> x < i
      decreases rest
    {
      var x :| x in rest;
      rest := rest - {x};
      if i <= x { i := x + 1; }
    }
  }

  /** What the operating system answers during one write; `calls` is what each `os.write` reports. */
  datatype Faults = Faults(onOpen: bool, calls: seq<int>, onFsync: bool, onRename: bool, onUnlink: bool)

  /** Interrupted calls (negative) are retried, short ones continued, no progress (zero) is a failure. */
  predicate Completes(calls: seq<int>, room: nat)
  {
    if room == 0 || calls == [] then true
    else if calls[0] < 0 then Completes(calls[1..], room)
    else if calls[0] == 0 then false
    else if calls[0] >= room then true
    else Completes(calls[1..], room - calls[0])
  }

  predicate Publishes(faults: Faults, payload: Bytes)
  {
    !faults.onOpen && Completes(faults.calls, |payload|) && !faults.onFsync && !faults.onRename
  }

  class JournalStore {
    var disk: Disk
    ghost var trace: seq<Disk>

    ghost predicate Consistent()
      reads this
    {
      Valid(disk) && |trace| > 0 && trace[|trace| - 1] == disk
    }

    constructor (d: Disk)
      requires Valid(d)
      ensures Consistent() && disk == d
    {
      disk := d;
      trace := [d];
    }

    method Advance(d: Disk)
      requires Valid(d)
      modifies this
      ensures disk == d && trace == old(trace) + [d] && Consistent()
    {
      disk := d;
      trace := trace + [d];
    }

    method OpenTruncated(path: string, fails: bool) returns (ok: bool)
      requires Consistent()
      modifies this
      ensures Consistent()
      ensures ok == !fails
      ensures if ok then trace == old(trace) + [disk] else disk == old(disk) && trace == old(trace)
      ensures Staged(old(disk), disk, path)
      ensures ok ==> TemporaryName(path) in disk.dir && disk.inodes[disk.dir[TemporaryName(path)]].data == []
    {
      if fails { return false; }
      ok := true;
      var ino := FreshInode(disk.inodes);
      OpenedIsStaged(disk, path, ino);
      Advance(Opened(disk, path, ino));
    }

    /** The short-write loop. */
    method WriteAll(path: string, payload: Bytes, calls: seq<int>) returns (written: bool)
      requires Consistent()
      requires TemporaryName(path) in disk.dir && disk.inodes[disk.dir[TemporaryName(path)]].data == []
      modifies this
      ensures Consistent() && old(trace) <= trace && disk.dir == old(disk).dir
      ensures written <==> Completes(calls, |payload|)
      ensures written ==> disk.inodes[disk.dir[TemporaryName(path)]].data == payload
      ensures disk.inodes[disk.dir[TemporaryName(path)]].data <= payload
      ensures forall k :: |old(trace)| <= k < |trace| ==> TemporaryDiffers(old(disk), trace[k], path)
      ensures TemporaryDiffers(old(disk), disk, path)
    {
      ghost var start, before := disk, trace;
      var ino := disk.dir[TemporaryName(path)];
      var offset, call := 0, 0;
      while offset < |payload|
        invariant 0 <= offset <= |payload| && 0 <= call <= |calls|
        invariant Consistent() && before <= trace && TemporaryDiffers(start, disk, path)
        invariant disk.inodes[ino].data == payload[..offset]
        invariant Completes(calls, |payload|) == Completes(calls[call..], |payload| - offset)
        invariant forall k :: |before| <= k < |trace| ==> TemporaryDiffers(start, trace[k], path)
        decreases |calls| - call, |payload| - offset
      {
        var room := |payload| - offset;
        var accepted := room;
        if call < |calls| {
          accepted := if calls[call] < room then calls[call] else room;
          assert calls[call..][1..] == calls[call + 1..];
          call := call + 1;
        }
        if accepted < 0 { continue; }
        if accepted == 0 { return false; }
        var data := disk.inodes[ino].data + payload[offset..offset + accepted];
        assert data == payload[..offset + accepted];
        TemporaryDataKeeps(disk, TemporaryName(path), data, false, path);
        Advance(SetInode(disk, ino, data, false));
        offset := offset + accepted;
      }
      assert payload[..offset] == payload;
      written := true;
    }

    /** A failed write takes its temporary file with it, unless that fails as well. */
    method RemoveTemporary(path: string, fails: bool)
      requires Consistent()
      modifies this
      ensures Consistent() && (trace == old(trace) + [disk] || (trace == old(trace) && disk == old(disk)))
      ensures Staged(old(disk), disk, path) && (!fails ==> TemporaryName(path) !in disk.dir)
    {
      if fails { return; }
      UnlinkKeeps(disk, TemporaryName(path), path);
      forall name | name != TemporaryName(path) { UnlinkKeeps(disk, TemporaryName(path), name); }
      Advance(Perform(disk, Unlink(TemporaryName(path))));
    }

    /** Open, write all, fsync: on success the whole payload is flushed in the temporary file. */
    method WriteTemporary(path: string, payload: Bytes, faults: Faults) returns (ok: bool)
      requires Consistent()
      modifies this
      ensures Consistent() && old(trace) <= trace
      ensures forall k :: |old(trace)| <= k < |trace| ==> Staged(old(disk), trace[k], path)
      ensures Staged(old(disk), disk, path)
      ensures ok <==> !faults.onOpen && Completes(faults.calls, |payload|) && !faults.onFsync
      ensures ok ==> VisibleAs(disk, TemporaryName(path), payload)
      ensures !ok && !faults.onOpen && !faults.onUnlink ==> TemporaryName(path) !in disk.dir
    {
      ghost var start, begun := disk, trace;
      ok := OpenTruncated(path, faults.onOpen);
      if !ok { return; }
      ghost var empty, emptyTrace := disk, trace;
      ok := WriteAll(path, payload, faults.calls);
      forall k | |emptyTrace| <= k < |trace| ensures Staged(start, trace[k], path) {
        TemporaryDiffersKeeps(empty, trace[k], path);
        StagedTwice(start, empty, trace[k], path);
      }
      TemporaryDiffersKeeps(empty, disk, path);
      StagedTwice(start, empty, disk, path);
      ghost var full := disk;
      ok := ok && !faults.onFsync;
      if !ok {
        RemoveTemporary(path, faults.onUnlink);
      } else {
        var t := TemporaryName(path);
        TemporaryDataKeeps(disk, t, payload, true, path);
        forall name | name != t { TemporaryDataKeeps(full, t, payload, true, name); }
        Advance(SetInode(disk, disk.dir[t], payload, true));
      }
      StagedTwice(start, full, disk, path);
    }

    /** A whole file behind a rename; the directory is not fsynced yet. */
    method Publish(path: string, payload: Bytes, faults: Faults, ghost before: set<Option<Bytes>>) returns (ok: bool)
      requires Consistent() && !IsTemporary(path) && CrashSafe(disk, path, before)
      modifies this
      ensures Consistent() && old(trace) <= trace
      ensures forall k :: |old(trace)| <= k < |trace| ==> Reached(old(disk), trace[k], path, before, payload)
      ensures Reached(old(disk), disk, path, before, payload)
      ensures ok <==> Publishes(faults, payload)
      ensures ok ==> VisibleAs(disk, path, payload)
    {
      ghost var start, begun := disk, trace;
      ok := WriteTemporary(path, payload, faults);
      forall k | |begun| <= k < |trace| { StagedIsReached(start, trace[k], path, before, payload); }
      StagedIsReached(start, disk, path, before, payload);
      ok := ok && !faults.onRename;
      if !ok { return; }
      ghost var written := disk;
      assert Kept(start, written, path);
      var t := TemporaryName(path);
      MoveKeepsValid(disk, t, path);
      MoveReplaces(disk, t, path, payload, before);
      Advance(Perform(disk, Move(t, path, disk.dir[t])));
      forall name | name != path && name != t ensures Kept(start, disk, name) {
        assert Kept(start, written, name);
        MoveKeeps(written, t, path, name);
      }
    }

    method SyncDirectory(fails: bool) returns (ok: bool)
      requires Consistent()
      modifies this
      ensures Consistent() && ok == !fails && forall name :: Kept(old(disk), disk, name)
      ensures if ok then trace == old(trace) + [disk] else disk == old(disk) && trace == old(trace)
      ensures ok ==> disk == FsyncDirectory(old(disk))
      ensures ok ==> forall name, data :: VisibleAs(old(disk), name, data) ==> CrashSafe(disk, name, {Some(data)})
    {
      if fails { return false; }
      ok := true;
      ghost var before := disk;
      FsyncKeeps(disk, "");
      forall name { FsyncKeeps(before, name); }
      Advance(FsyncDirectory(disk));
    }

    /** Atomically replace the record at `path`. */
    method Write(path: string, payload: Bytes, faults: Faults, directoryFails: bool, ghost before: set<Option<Bytes>>)
      returns (ok: bool)
      requires Consistent() && !IsTemporary(path) && CrashSafe(disk, path, before)
      modifies this
      // wherever it stops, the record reads as a previous one or as the whole new one
      ensures Consistent() && old(trace) <= trace
      ensures forall k :: |old(trace)| <= k < |trace| ==> Reached(old(disk), trace[k], path, before, payload)
      ensures Reached(old(disk), disk, path, before, payload)
      // and once it returns normally, which it does unless a call failed, only as the new one
      ensures ok <==> Publishes(faults, payload) && !directoryFails
      ensures ok ==> CrashSafe(disk, path, {Some(payload)})
    {
      ghost var start := disk;
      ok := Publish(path, payload, faults, before);
      if !ok { return; }
      ghost var renamed := disk;
      ok := SyncDirectory(directoryFails);
      ReachedAndKept(start, renamed, disk, path, before, payload);
    }
  }

  // ---------------------------------------------------------------------------
  // The completed capture
  // ---------------------------------------------------------------------------

  datatype Capture = Capture(returncode: int, timedOut: bool, outputExceeded: bool, stdout: Bytes, stderr: Bytes)

  datatype Metadata = Metadata(
    returncode: int, timedOut: bool, outputExceeded: bool,
    stdoutSize: nat, stdoutDigest: nat, stderrSize: nat, stderrDigest: nat)

  /**
   Opaque functions: the marker's serialisation, the digest, UTF-8 decoding, and the `task_known`
   record with what a reader of the journal takes from it.
   */
  datatype Codec = Codec(
    render: Metadata -> Bytes, parse: Bytes -> Option<Metadata>, digest: Bytes -> nat,
    decode: Bytes -> Option<TaskIdentity.Codes>,
    record: TaskIdentity.Codes -> Bytes, task: Bytes -> Option<TaskIdentity.Codes>)

  ghost predicate Sound(codec: Codec)
  {
    && (forall m :: codec.parse(codec.render(m)) == Some(m))
    && (forall a, b :: codec.digest(a) == codec.digest(b) ==> a == b)
    && (forall upid :: codec.task(codec.record(upid)) == Some(upid))
  }

  const MAX_CAPTURE_OUTPUT_BYTES: nat := 512 * 1024

  function CapturePath(id: string, suffix: string): string { "op-" + id + ".pvesh-" + suffix }
  function StdoutPath(id: string): string { CapturePath(id, "stdout") }
  function StderrPath(id: string): string { CapturePath(id, "stderr") }
  function MarkerPath(id: string): string { CapturePath(id, "complete.json") }

  function MetadataOf(c: Capture, codec: Codec): Metadata
  {
    Metadata(c.returncode, c.timedOut, c.outputExceeded,
             |c.stdout|, codec.digest(c.stdout), |c.stderr|, codec.digest(c.stderr))
  }

  predicate Matches(stream: Option<Bytes>, size: nat, digest: nat, codec: Codec)
  {
    stream.Some? && |stream.value| == size && codec.digest(stream.value) == digest
  }

  /** The reader's verdict on the three files it read, in this order: marker, stdout, stderr. */
  function CaptureOf(marker: Option<Bytes>, stdout: Option<Bytes>, stderr: Option<Bytes>, codec: Codec): Option<Capture>
  {
    match marker
    case None => None
    case Some(raw) =>
      match codec.parse(raw)
      case None => None
      case Some(m) =>
        if || m.stdoutSize > MAX_CAPTURE_OUTPUT_BYTES + 1 || m.stderrSize > MAX_CAPTURE_OUTPUT_BYTES + 1
           || !Matches(stdout, m.stdoutSize, m.stdoutDigest, codec)
           || !Matches(stderr, m.stderrSize, m.stderrDigest, codec)
        then None
        else Some(Capture(m.returncode, m.timedOut, m.outputExceeded, stdout.value, stderr.value))
  }

  function ReadCompletedCapture(d: Disk, id: string, codec: Codec): Option<Capture>
  {
    CaptureOf(Read(d, MarkerPath(id)), Read(d, StdoutPath(id)), Read(d, StderrPath(id)), codec)
  }

  predicate IsCaptureFile(id: string, name: string)
  {
    exists path <- [StdoutPath(id), StderrPath(id), MarkerPath(id)] :: name == path || name == TemporaryName(path)
  }

  lemma TemporaryEnds(name: string)
    requires IsTemporary(name)
    ensures name[|name| - 1] == 'p'
  {
    assert name[|name| - 4..][3] == name[|name| - 1];
  }

  lemma CapturePathsDiffer(id: string)
    ensures !IsTemporary(StdoutPath(id)) && !IsTemporary(StderrPath(id)) && !IsTemporary(MarkerPath(id))
    ensures StdoutPath(id) != StderrPath(id) && StdoutPath(id) != MarkerPath(id) && StderrPath(id) != MarkerPath(id)
  {
    var out, err, mark := StdoutPath(id), StderrPath(id), MarkerPath(id);
    assert out[|out| - 1] == 't' && err[|err| - 1] == 'r' && mark[|mark| - 1] == 'n';
    if IsTemporary(out) { TemporaryEnds(out); }
    if IsTemporary(err) { TemporaryEnds(err); }
    if IsTemporary(mark) { TemporaryEnds(mark); }
  }

  /**
   With the marker absent or whole a reader finds nothing or exactly this capture, whatever the
   stream files hold; so it does when they change under it between its three reads.
   */
  lemma MarkerDecides(d: Disk, id: string, c: Capture, codec: Codec, stdout: Option<Bytes>, stderr: Option<Bytes>)
    requires Valid(d) && Sound(codec)
    requires CrashSafe(d, MarkerPath(id), {None, Some(codec.render(MetadataOf(c, codec)))})
    ensures CaptureOf(Read(d, MarkerPath(id)), stdout, stderr, codec) in {None, Some(c)}
    ensures forall after :: Survives(d, after) ==> CaptureOf(Read(after, MarkerPath(id)), stdout, stderr, codec) in {None, Some(c)}
  {
    var allowed := {None, Some(codec.render(MetadataOf(c, codec)))};
    CrashSafeReads(d, d, MarkerPath(id), allowed);
    forall after | Survives(d, after)
      ensures CaptureOf(Read(after, MarkerPath(id)), stdout, stderr, codec) in {None, Some(c)}
    {
      CrashSafeReads(d, after, MarkerPath(id), allowed);
    }
  }

  predicate Readable(c: Capture)
  {
    |c.stdout| <= MAX_CAPTURE_OUTPUT_BYTES + 1 && |c.stderr| <= MAX_CAPTURE_OUTPUT_BYTES + 1
  }

  ghost predicate Recorded(d: Disk, id: string, c: Capture, codec: Codec)
  {
    && CrashSafe(d, MarkerPath(id), {Some(codec.render(MetadataOf(c, codec)))})
    && CrashSafe(d, StdoutPath(id), {Some(c.stdout)})
    && CrashSafe(d, StderrPath(id), {Some(c.stderr)})
  }

  /** All three files durable: the capture reads back exactly, now and after a power loss. */
  lemma RecordedReads(d: Disk, id: string, c: Capture, codec: Codec)
    requires Valid(d) && Sound(codec) && Recorded(d, id, c, codec)
    ensures ReadCompletedCapture(d, id, codec) == if Readable(c) then Some(c) else None
    ensures forall after :: Survives(d, after) ==> ReadCompletedCapture(after, id, codec) == ReadCompletedCapture(d, id, codec)
  {
    var marker := codec.render(MetadataOf(c, codec));
    CrashSafeReads(d, d, MarkerPath(id), {Some(marker)});
    CrashSafeReads(d, d, StdoutPath(id), {Some(c.stdout)});
    CrashSafeReads(d, d, StderrPath(id), {Some(c.stderr)});
    forall after | Survives(d, after) ensures ReadCompletedCapture(after, id, codec) == ReadCompletedCapture(d, id, codec) {
      CrashSafeReads(d, after, MarkerPath(id), {Some(marker)});
      CrashSafeReads(d, after, StdoutPath(id), {Some(c.stdout)});
      CrashSafeReads(d, after, StderrPath(id), {Some(c.stderr)});
    }
  }

  lemma UnlinkedIsGone(d: Disk, name: string, allowed: set<Option<Bytes>>)
    requires Valid(d) && !IsTemporary(name) && CrashSafe(d, name, allowed)
    ensures Valid(Perform(d, Unlink(name)))
    ensures CrashSafe(Perform(d, Unlink(name)), name, allowed + {None})
    ensures CrashSafe(FsyncDirectory(Perform(d, Unlink(name))), name, {None})
  {
    var e := Perform(d, Unlink(name));
    UnlinkKeeps(d, name, TemporaryName(name));
    forall p | p in e.outcomes ensures SafeIn(e, p, name, allowed + {None}) {
      if p in d.outcomes {
        assert SafeIn(d, p, name, allowed);
      } else {
        var q :| q in d.outcomes && p == Apply(q, Unlink(name));
      }
    }
  }

  /** A state of the capture's publication or removal: the marker is absent or whole, other files untouched. */
  ghost predicate CaptureReached(d: Disk, e: Disk, id: string, marker: Bytes)
  {
    && Valid(e) && CrashSafe(e, MarkerPath(id), {None, Some(marker)})
    && forall name :: !IsCaptureFile(id, name) ==> Kept(d, e, name)
  }

  lemma StreamPublished(d: Disk, e: Disk, f: Disk, id: string, path: string, before: set<Option<Bytes>>, payload: Bytes, marker: Bytes)
    requires CaptureReached(d, e, id, marker) && Reached(e, f, path, before, payload)
    requires path == StdoutPath(id) || path == StderrPath(id)
    ensures CaptureReached(d, f, id, marker)
    ensures CrashSafe(e, MarkerPath(id), {None}) ==> CrashSafe(f, MarkerPath(id), {None})
  {
    CapturePathsDiffer(id);
    if MarkerPath(id) == TemporaryName(path) { TemporaryEnds(MarkerPath(id)); assert false; }
    assert Kept(e, f, MarkerPath(id));
    forall name | !IsCaptureFile(id, name) ensures Kept(d, f, name) {
      assert path in [StdoutPath(id), StderrPath(id), MarkerPath(id)];
      assert Kept(d, e, name) && Kept(e, f, name);
    }
  }

  lemma MarkerPublished(d: Disk, e: Disk, f: Disk, id: string, marker: Bytes)
    requires CaptureReached(d, e, id, marker) && Reached(e, f, MarkerPath(id), {None}, marker)
    ensures CaptureReached(d, f, id, marker)
  {
    assert {None} + {Some(marker)} == {None, Some(marker)};
    forall name | !IsCaptureFile(id, name) ensures Kept(d, f, name) {
      assert MarkerPath(id) in [StdoutPath(id), StderrPath(id), MarkerPath(id)];
      assert Kept(d, e, name) && Kept(e, f, name);
    }
  }

  lemma CaptureStepKept(d: Disk, e: Disk, f: Disk, id: string, marker: Bytes)
    requires CaptureReached(d, e, id, marker) && Valid(f) && forall name :: Kept(e, f, name)
    ensures CaptureReached(d, f, id, marker)
  {
    assert Kept(e, f, MarkerPath(id));
    forall name | !IsCaptureFile(id, name) ensures Kept(d, f, name) {
      assert Kept(d, e, name) && Kept(e, f, name);
    }
  }

  lemma CaptureUnlinked(d: Disk, e: Disk, id: string, path: string, marker: Bytes)
    requires CaptureReached(d, e, id, marker) && path in [StdoutPath(id), StderrPath(id), MarkerPath(id)]
    ensures CaptureReached(d, Perform(e, Unlink(path)), id, marker)
  {
    var f := Perform(e, Unlink(path));
    CapturePathsDiffer(id);
    UnlinkKeeps(e, path, TemporaryName(path));
    if path == MarkerPath(id) {
      UnlinkedIsGone(e, path, {None, Some(marker)});
      assert {None, Some(marker)} + {None} == {None, Some(marker)};
    } else {
      UnlinkKeeps(e, path, MarkerPath(id));
      assert Kept(e, f, MarkerPath(id));
    }
    forall name | !IsCaptureFile(id, name) ensures Kept(d, f, name) {
      UnlinkKeeps(e, path, name);
      assert Kept(d, e, name) && Kept(e, f, name);
    }
  }

  function RecordPath(id: string): string { "op-" + id + ".json" }

  /** A capture of a command that ended well and answered with exactly this task identity. */
  ghost predicate Yields(c: Capture, upid: TaskIdentity.Codes, codec: Codec)
  {
    && c.returncode == 0 && !c.timedOut && !c.outputExceeded
    && codec.decode(c.stdout).Some? && TaskIdentity.Answers(codec.decode(c.stdout).value, upid)
  }

  ghost predicate IdentityHeld(d: Disk, id: string, upid: TaskIdentity.Codes, c: Capture, codec: Codec)
  {
    Recorded(d, id, c, codec) || CrashSafe(d, RecordPath(id), {Some(codec.record(upid))})
  }

  /** The host can tell the task: from its journal record, or by reading the capture again. */
  ghost predicate Tells(d: Disk, id: string, upid: TaskIdentity.Codes, codec: Codec)
  {
    || (Read(d, RecordPath(id)).Some? && codec.task(Read(d, RecordPath(id)).value) == Some(upid))
    || (ReadCompletedCapture(d, id, codec).Some? && Yields(ReadCompletedCapture(d, id, codec).value, upid, codec))
  }

  /** A held identity can be told, now and after any power loss. */
  lemma HeldIdentityIsTold(d: Disk, id: string, upid: TaskIdentity.Codes, c: Capture, codec: Codec)
    requires Valid(d) && Sound(codec) && IdentityHeld(d, id, upid, c, codec) && Yields(c, upid, codec) && Readable(c)
    ensures Tells(d, id, upid, codec) && forall after :: Survives(d, after) ==> Tells(after, id, upid, codec)
  {
    if Recorded(d, id, c, codec) {
      RecordedReads(d, id, c, codec);
    } else {
      CrashSafeReads(d, d, RecordPath(id), {Some(codec.record(upid))});
      forall after | Survives(d, after) ensures Tells(after, id, upid, codec) {
        CrashSafeReads(d, after, RecordPath(id), {Some(codec.record(upid))});
      }
    }
  }

  lemma RecordPathDiffers(id: string)
    ensures !IsTemporary(RecordPath(id)) && !IsCaptureFile(id, RecordPath(id))
    ensures forall path <- [StdoutPath(id), StderrPath(id), MarkerPath(id)] ::
              path != RecordPath(id) && path != TemporaryName(RecordPath(id))
  {
    var rec := RecordPath(id);
    if IsTemporary(rec) { TemporaryEnds(rec); }
    var k := 4 + |id|;
    assert rec[k] == 'j' && TemporaryName(rec)[k] == 'j';
    forall path | path in [StdoutPath(id), StderrPath(id), MarkerPath(id)] ensures path[k] == 'p' && TemporaryName(path)[k] == 'p' {
      assert k < |path|;
    }
  }

  /** Writing the journal record leaves the capture as it was. */
  lemma RecordedKept(d: Disk, e: Disk, id: string, c: Capture, codec: Codec)
    requires Recorded(d, id, c, codec) && OthersKept(d, e, RecordPath(id))
    ensures Recorded(e, id, c, codec)
  {
    RecordPathDiffers(id);
    forall path | path in [StdoutPath(id), StderrPath(id), MarkerPath(id)] ensures Kept(d, e, path) { }
    assert Kept(d, e, StdoutPath(id)) && Kept(d, e, StderrPath(id)) && Kept(d, e, MarkerPath(id));
  }

  /** The runner's publication and the helpers' removal of a capture. */
  class CaptureStore {
    const store: JournalStore

    constructor (store: JournalStore)
      ensures this.store == store
    {
      this.store := store;
    }

    /** One stream file. Unlike a record's write, a failure leaves its temporary file behind. */
    method PublishStream(id: string, path: string, payload: Bytes, faults: Faults,
                         ghost before: set<Option<Bytes>>, ghost start: Disk, ghost marker: Bytes) returns (ok: bool)
      requires path == StdoutPath(id) || path == StderrPath(id)
      requires store.Consistent() && CaptureReached(start, store.disk, id, marker)
      requires CrashSafe(store.disk, path, before) && CrashSafe(store.disk, MarkerPath(id), {None})
      modifies store
      ensures store.Consistent() && old(store.trace) <= store.trace && CaptureReached(start, store.disk, id, marker)
      ensures forall k :: |old(store.trace)| <= k < |store.trace| ==> CaptureReached(start, store.trace[k], id, marker)
      ensures CrashSafe(store.disk, MarkerPath(id), {None}) && OthersKept(old(store.disk), store.disk, path)
      ensures ok <==> Publishes(faults, payload)
      ensures ok ==> VisibleAs(store.disk, path, payload)
    {
      ghost var first, begun := store.disk, store.trace;
      CapturePathsDiffer(id);
      ok := store.Publish(path, payload, faults.(onUnlink := true), before);
      forall k | |begun| <= k < |store.trace| ensures CaptureReached(start, store.trace[k], id, marker) {
        StreamPublished(start, first, store.trace[k], id, path, before, payload, marker);
      }
      StreamPublished(start, first, store.disk, id, path, before, payload, marker);
    }

    /** Both streams, then the marker, then the directory. */
    method WriteCompleted(id: string, c: Capture, codec: Codec, onStdout: Faults, onStderr: Faults, onMarker: Faults,
                          directoryFails: bool, ghost outBefore: set<Option<Bytes>>, ghost errBefore: set<Option<Bytes>>)
      returns (ok: bool)
      requires store.Consistent() && CrashSafe(store.disk, MarkerPath(id), {None})
      requires CrashSafe(store.disk, StdoutPath(id), outBefore) && CrashSafe(store.disk, StderrPath(id), errBefore)
      modifies store
      // wherever it stops, the marker is absent or whole (what that means for readers: MarkerDecides)
      ensures store.Consistent() && old(store.trace) <= store.trace
      ensures var marker := codec.render(MetadataOf(c, codec));
              forall k :: |old(store.trace)| <= k < |store.trace| ==> CaptureReached(old(store.disk), store.trace[k], id, marker)
      // and once it returns normally, all three files are durable (RecordedReads)
      ensures ok <==> Publishes(onStdout, c.stdout) && Publishes(onStderr, c.stderr)
                      && Publishes(onMarker, codec.render(MetadataOf(c, codec))) && !directoryFails
      ensures ok ==> Recorded(store.disk, id, c, codec)
    {
      ghost var start, begun := store.disk, store.trace;
      var out, err, mark := StdoutPath(id), StderrPath(id), MarkerPath(id);
      var marker := codec.render(MetadataOf(c, codec));
      CapturePathsDiffer(id);
      WiderIsSafe(start, mark, {None}, {None, Some(marker)});
      ok := PublishStream(id, out, c.stdout, onStdout, outBefore, start, marker);
      if !ok { return; }
      ghost var first := store.disk;
      assert Kept(start, first, err);
      ok := PublishStream(id, err, c.stderr, onStderr, errBefore, start, marker);
      if !ok { return; }
      ghost var second, streams := store.disk, store.trace;
      assert Kept(first, second, out);
      ok := store.Publish(mark, marker, onMarker.(onUnlink := true), {None});
      forall k | |streams| <= k < |store.trace| ensures CaptureReached(start, store.trace[k], id, marker) {
        MarkerPublished(start, second, store.trace[k], id, marker);
      }
      if !ok { return; }
      ghost var third := store.disk;
      MarkerPublished(start, second, third, id, marker);
      assert Kept(second, third, out) && Kept(second, third, err);
      ok := store.SyncDirectory(directoryFails);
      CaptureStepKept(start, third, store.disk, id, marker);
    }

    /** Unlink one capture file; a missing one is tolerated. */
    method Remove(id: string, path: string, fails: bool, ghost start: Disk, ghost marker: Bytes) returns (ok: bool)
      requires path in [StdoutPath(id), StderrPath(id), MarkerPath(id)]
      requires store.Consistent() && CaptureReached(start, store.disk, id, marker)
      modifies store
      ensures store.Consistent() && old(store.trace) <= store.trace && CaptureReached(start, store.disk, id, marker)
      ensures forall k :: |old(store.trace)| <= k < |store.trace| ==> CaptureReached(start, store.trace[k], id, marker)
      ensures store.disk.dir.Keys <= old(store.disk).dir.Keys
      ensures ok <==> path !in old(store.disk).dir || !fails
      ensures ok ==> path !in store.disk.dir
    {
      if path !in store.disk.dir { return true; }
      if fails { return false; }
      ghost var before := store.disk;
      UnlinkKeeps(store.disk, path, TemporaryName(path));
      store.Advance(Perform(store.disk, Unlink(path)));
      CaptureUnlinked(start, before, id, path, marker);
      ok := true;
    }

    method Cleanup(id: string, fails: seq<bool>, directoryFails: bool, ghost marker: Bytes) returns (ok: bool)
      requires store.Consistent() && CrashSafe(store.disk, MarkerPath(id), {None, Some(marker)}) && |fails| == 3
      modifies store
      ensures store.Consistent() && old(store.trace) <= store.trace
      ensures CaptureReached(old(store.disk), store.disk, id, marker)
      ensures forall k :: |old(store.trace)| <= k < |store.trace| ==> CaptureReached(old(store.disk), store.trace[k], id, marker)
      ensures ok ==> forall path <- [StdoutPath(id), StderrPath(id), MarkerPath(id)] :: CrashSafe(store.disk, path, {None})
      ensures fails == [false, false, false] && !directoryFails ==> ok
    {
      ghost var start := store.disk;
      var paths := [StdoutPath(id), StderrPath(id), MarkerPath(id)];
      var i := 0;
      while i < 3
        invariant 0 <= i <= 3 && store.Consistent() && old(store.trace) <= store.trace
        invariant CaptureReached(start, store.disk, id, marker)
        invariant forall k :: |old(store.trace)| <= k < |store.trace| ==> CaptureReached(start, store.trace[k], id, marker)
        invariant forall j :: 0 <= j < i ==> paths[j] !in store.disk.dir
      {
        ok := Remove(id, paths[i], fails[i], start, marker);
        if !ok { return; }
        i := i + 1;
      }
      ghost var unlinked := store.disk;
      ok := store.SyncDirectory(directoryFails);
      CaptureStepKept(start, unlinked, store.disk, id, marker);
      if ok {
        forall path | path in paths ensures CrashSafe(store.disk, path, {None}) {
          assert exists j :: 0 <= j < 3 && paths[j] == path;
        }
      }
    }

    /** Journal this identity, then remove the capture. */
    method RecordIdentity(id: string, upid: TaskIdentity.Codes, ghost c: Capture, codec: Codec, onWrite: Faults,
                          writeFails: bool, fails: seq<bool>, cleanupFails: bool, ghost before: set<Option<Bytes>>)
      returns (ok: bool)
      requires store.Consistent() && Recorded(store.disk, id, c, codec) && CrashSafe(store.disk, RecordPath(id), before)
      requires |fails| == 3
      modifies store
      ensures store.Consistent() && old(store.trace) <= store.trace
      // wherever it stops, a power loss leaves the record that names the task, or the capture that yields it
      ensures forall k :: |old(store.trace)| <= k < |store.trace| ==>
                IdentityHeld(store.trace[k], id, upid, c, codec)
                && CrashSafe(store.trace[k], RecordPath(id), before + {Some(codec.record(upid))})
      ensures ok ==> CrashSafe(store.disk, RecordPath(id), {Some(codec.record(upid))})
                     && CrashSafe(store.disk, MarkerPath(id), {None})
      ensures Publishes(onWrite, codec.record(upid)) && !writeFails && fails == [false, false, false] && !cleanupFails ==> ok
    {
      var payload := codec.record(upid);
      ghost var start := store.disk;
      ghost var marker := codec.render(MetadataOf(c, codec));
      RecordPathDiffers(id);
      ok := store.Write(RecordPath(id), payload, onWrite, writeFails, before);
      forall k | |old(store.trace)| <= k < |store.trace| ensures IdentityHeld(store.trace[k], id, upid, c, codec) {
        RecordedKept(start, store.trace[k], id, c, codec);
      }
      RecordedKept(start, store.disk, id, c, codec);
      if !ok { return; }
      ghost var written, writtenTrace := store.disk, store.trace;
      WiderIsSafe(written, MarkerPath(id), {Some(marker)}, {None, Some(marker)});
      ok := Cleanup(id, fails, cleanupFails, marker);
      forall k | |writtenTrace| <= k < |store.trace|
        ensures IdentityHeld(store.trace[k], id, upid, c, codec)
        ensures CrashSafe(store.trace[k], RecordPath(id), before + {Some(payload)})
      {
        assert Kept(written, store.trace[k], RecordPath(id));
        WiderIsSafe(store.trace[k], RecordPath(id), {Some(payload)}, before + {Some(payload)});
      }
      assert Kept(written, store.disk, RecordPath(id));
      if ok { assert MarkerPath(id) in [StdoutPath(id), StderrPath(id), MarkerPath(id)]; }
    }

    /** Read the completed capture; if it ended well and names one task, journal that identity and remove it. */
    method Promote(id: string, codec: Codec, onWrite: Faults, writeFails: bool, fails: seq<bool>, cleanupFails: bool,
                   ghost before: set<Option<Bytes>>) returns (upid: Option<TaskIdentity.Codes>, ok: bool)
      requires store.Consistent() && CrashSafe(store.disk, RecordPath(id), before) && |fails| == 3
      requires var c := ReadCompletedCapture(store.disk, id, codec); c.Some? ==> Recorded(store.disk, id, c.value, codec)
      modifies store
      ensures store.Consistent() && old(store.trace) <= store.trace
      // the identity is the one the capture yields, and there is none exactly if it yields none
      ensures var c := old(ReadCompletedCapture(store.disk, id, codec));
              forall u :: upid == Some(u) <==> c.Some? && Yields(c.value, u, codec)
      ensures upid == None ==> ok && store.disk == old(store.disk) && store.trace == old(store.trace)
      // wherever it stops, a power loss leaves the record that names the task, or the capture that yields it
      ensures upid.Some? ==> forall k :: |old(store.trace)| <= k < |store.trace| ==>
                IdentityHeld(store.trace[k], id, upid.value, old(ReadCompletedCapture(store.disk, id, codec)).value, codec)
                && CrashSafe(store.trace[k], RecordPath(id), before + {Some(codec.record(upid.value))})
      ensures upid.Some? && ok ==> CrashSafe(store.disk, RecordPath(id), {Some(codec.record(upid.value))})
                                   && CrashSafe(store.disk, MarkerPath(id), {None})
      ensures upid.Some? && Publishes(onWrite, codec.record(upid.value)) ==>
                !writeFails && fails == [false, false, false] && !cleanupFails ==> ok
    {
      var c := ReadCompletedCapture(store.disk, id, codec);
      upid, ok := None, true;
      if c == None || c.value.returncode != 0 || c.value.timedOut || c.value.outputExceeded { return; }
      upid := TaskIdentity.ExtractUpid(codec.decode(c.value.stdout));
      if upid == None { return; }
      ok := RecordIdentity(id, upid.value, c.value, codec, onWrite, writeFails, fails, cleanupFails, before);
    }
  }
}
