/**
 Any number of processes writing one journal record, every system call of each interleaved with
 those of the others. All of them use the same temporary name, so two that have it open together
 write into one file, and a rename publishes whatever is in it.
 */
module SharedTemporary {
  import opened Wrappers
  import opened DurableFiles
  import opened Journal

  /** `payloads`: what each writer is to write; `before`: what the record may read as when they start. */
  datatype Task = Task(path: string, payloads: map<nat, Bytes>, before: set<Option<Bytes>>)

  /** A record is a JSON object and never empty. */
  predicate Sensible(task: Task)
  {
    !IsTemporary(task.path) && forall w :: w in task.payloads ==> task.payloads[w] != []
  }

  /** A previous record, or the whole record of one of the writers. */
  function Allowed(task: Task): set<Option<Bytes>>
  {
    task.before + set w | w in task.payloads :: Some(task.payloads[w])
  }

  /** A writer holds the file it opened, by number; a name is looked up only at the rename. */
  datatype Progress = Writing(ino: nat, offset: nat) | Flushed(ino: nat) | Published | Finished

  datatype State = State(disk: Disk, writers: map<nat, Progress>)

  /** Between its open and its rename. */
  predicate InFile(s: State, w: nat)
  {
    w in s.writers && (s.writers[w].Writing? || s.writers[w].Flushed?)
  }

  predicate NobodyInFile(s: State)
  {
    forall w :: w in s.writers ==> !InFile(s, w)
  }

  // ---------------------------------------------------------------------------
  // System calls
  // ---------------------------------------------------------------------------

  predicate Open(task: Task, s: State, s': State, w: nat, ino: nat)
  {
    var t := TemporaryName(task.path);
    && w in task.payloads && w !in s.writers && (t in s.disk.dir || ino !in s.disk.inodes)
    && s' == State(Opened(s.disk, task.path, ino), s.writers[w := Writing(Opened(s.disk, task.path, ino).dir[t], 0)])
  }

  function Zeros(n: nat): Bytes
  {
    seq(n, _ => 0)
  }

  /** `write` at a descriptor's own offset: a hole that another writer's truncation left reads as zeros. */
  function Overwrite(data: Bytes, offset: nat, chunk: Bytes): Bytes
  {
    if |data| <= offset then data + Zeros(offset - |data|) + chunk
    else if |data| <= offset + |chunk| then data[..offset] + chunk
    else data[..offset] + chunk + data[offset + |chunk|..]
  }

  predicate WriteChunk(task: Task, s: State, s': State, w: nat, n: nat)
  {
    && w in task.payloads && w in s.writers && s.writers[w].Writing? && s.writers[w].ino in s.disk.inodes
    && var ino, offset := s.writers[w].ino, s.writers[w].offset;
       && 0 < n && offset + n <= |task.payloads[w]|
       && var data := Overwrite(s.disk.inodes[ino].data, offset, task.payloads[w][offset..offset + n]);
          s' == State(SetInode(s.disk, ino, data, false), s.writers[w := Writing(ino, offset + n)])
  }

  predicate Fsync(task: Task, s: State, s': State, w: nat)
  {
    && w in task.payloads && w in s.writers && s.writers[w].Writing? && s.writers[w].ino in s.disk.inodes
    && s.writers[w].offset == |task.payloads[w]|
    && var ino := s.writers[w].ino;
       s' == State(SetInode(s.disk, ino, s.disk.inodes[ino].data, true), s.writers[w := Flushed(ino)])
  }

  /** The rename goes by name: it publishes the file that has the temporary name now. */
  predicate Rename(task: Task, s: State, s': State, w: nat)
  {
    var t := TemporaryName(task.path);
    && w in s.writers && s.writers[w].Flushed? && t in s.disk.dir
    && s' == State(Perform(s.disk, Move(t, task.path, s.disk.dir[t])), s.writers[w := Published])
  }

  predicate SyncDirectory(s: State, s': State, w: nat)
  {
    && w in s.writers && s.writers[w].Published?
    && s' == State(FsyncDirectory(s.disk), s.writers[w := Finished])
  }

  /** Death, or a failed call; a failed write or fsync also takes the temporary name away, whose ever it is. */
  predicate Stop(task: Task, s: State, s': State, w: nat)
  {
    && w in s.writers
    && (s' == State(s.disk, s.writers[w := Finished])
        || (s.writers[w].Writing?
            && s' == State(Perform(s.disk, Unlink(TemporaryName(task.path))), s.writers[w := Finished])))
  }

  ghost predicate Next(task: Task, s: State, s': State)
  {
    || (exists w, ino :: Open(task, s, s', w, ino))
    || (exists w, n :: WriteChunk(task, s, s', w, n))
    || (exists w :: Fsync(task, s, s', w) || Rename(task, s, s', w) || SyncDirectory(s, s', w) || Stop(task, s, s', w))
  }

  /** A step that is not an open while another writer is between its open and its rename. */
  ghost predicate Orderly(task: Task, s: State, s': State)
  {
    Next(task, s, s') && ((exists w, ino :: Open(task, s, s', w, ino)) ==> NobodyInFile(s))
  }

  ghost predicate IsPath(task: Task, path: seq<State>)
  {
    |path| > 0 && forall i: nat :: i + 1 < |path| ==> StepAt(task, path, i)
  }

  ghost predicate StepAt(task: Task, path: seq<State>, i: nat)
    requires i + 1 < |path|
  {
    Orderly(task, path[i], path[i + 1])
  }

  // ---------------------------------------------------------------------------
  // Reading the record
  // ---------------------------------------------------------------------------

  /** Now, and after any power loss, the record reads as a previous one or as a whole new one. */
  ghost predicate Trustworthy(task: Task, d: Disk)
  {
    && Read(d, task.path) in Allowed(task)
    && forall after :: Survives(d, after) ==> Read(after, task.path) in Allowed(task)
  }

  lemma CrashSafeIsTrustworthy(task: Task, d: Disk)
    requires Valid(d) && CrashSafe(d, task.path, Allowed(task))
    ensures Trustworthy(task, d)
  {
    CrashSafeReads(d, d, task.path, Allowed(task));
    forall after | Survives(d, after) ensures Read(after, task.path) in Allowed(task) {
      CrashSafeReads(d, after, task.path, Allowed(task));
    }
  }

  lemma {:induction false} Unheard(allowed: set<Option<Bytes>>) returns (data: Bytes)
    ensures forall x :: x in allowed && x.Some? ==> |x.value| < |data|
    decreases allowed
  {
    if allowed == {} {
      data := [];
    } else {
      var x :| x in allowed;
      data := Unheard(allowed - {x});
      data := data + if x.Some? then x.value + [0] else [];
      assert allowed == (allowed - {x}) + {x};
    }
  }

  /** A record whose file is not flushed may read as anything after a power loss. */
  lemma UnflushedIsUntrustworthy(task: Task, d: Disk)
    requires d.dir in d.outcomes && task.path in d.dir && d.dir[task.path] in d.inodes && !d.inodes[d.dir[task.path]].flushed
    ensures !Trustworthy(task, d)
  {
    var data := Unheard(Allowed(task));
    var ino := d.dir[task.path];
    var after := Disk(map i | i in d.inodes :: Inode(if i == ino then data else d.inodes[i].data, true), d.dir, {d.dir});
    assert Survives(d, after) && Read(after, task.path) == Some(data);
  }

  // ---------------------------------------------------------------------------
  // One writer at a time
  // ---------------------------------------------------------------------------

  /** The temporary file is the writer's own and holds exactly what it has written. */
  predicate OwnFile(task: Task, s: State, w: nat)
    requires w in s.writers
  {
    var t := TemporaryName(task.path);
    && w in task.payloads && t in s.disk.dir
    && match s.writers[w]
       case Writing(ino, offset) =>
         ino == s.disk.dir[t] && offset <= |task.payloads[w]| && ino in s.disk.inodes
         && s.disk.inodes[ino].data == task.payloads[w][..offset]
       case Flushed(ino) =>
         ino == s.disk.dir[t] && ino in s.disk.inodes && s.disk.inodes[ino] == Inode(task.payloads[w], true)
       case _ => true
  }

  /** At most one writer is between its open and its rename, and the record is safe. */
  ghost predicate Exclusive(task: Task, s: State)
  {
    && Valid(s.disk) && CrashSafe(s.disk, task.path, Allowed(task))
    && (forall w :: InFile(s, w) ==> OwnFile(task, s, w))
    && (forall w, v :: InFile(s, w) && InFile(s, v) ==> w == v)
  }

  lemma OpenStaysExclusive(task: Task, s: State, s': State, w: nat, ino: nat)
    requires Sensible(task) && Exclusive(task, s) && Open(task, s, s', w, ino) && NobodyInFile(s)
    ensures Exclusive(task, s')
  {
    OpenedIsStaged(s.disk, task.path, ino);
    assert Kept(s.disk, s'.disk, task.path);
  }

  lemma OnlyWriter(task: Task, s: State, s': State, w: nat)
    requires Exclusive(task, s) && InFile(s, w) && w in s'.writers && s'.writers == s.writers[w := s'.writers[w]]
    ensures forall v :: InFile(s', v) ==> v == w
  {
    forall v | InFile(s', v) ensures v == w { assert v != w ==> InFile(s, v); }
  }

  lemma ChunkStaysExclusive(task: Task, s: State, s': State, w: nat, n: nat)
    requires Sensible(task) && Exclusive(task, s) && WriteChunk(task, s, s', w, n)
    ensures Exclusive(task, s')
  {
    assert OwnFile(task, s, w);
    var ino, offset, payload := s.writers[w].ino, s.writers[w].offset, task.payloads[w];
    var data := Overwrite(s.disk.inodes[ino].data, offset, payload[offset..offset + n]);
    assert data == payload[..offset + n];
    TemporaryDataKeeps(s.disk, TemporaryName(task.path), data, false, task.path);
    assert Kept(s.disk, s'.disk, task.path);
    OnlyWriter(task, s, s', w);
  }

  lemma FsyncStaysExclusive(task: Task, s: State, s': State, w: nat)
    requires Sensible(task) && Exclusive(task, s) && Fsync(task, s, s', w)
    ensures Exclusive(task, s')
  {
    assert OwnFile(task, s, w);
    var ino, payload := s.writers[w].ino, task.payloads[w];
    assert payload[..|payload|] == payload;
    TemporaryDataKeeps(s.disk, TemporaryName(task.path), payload, true, task.path);
    assert Kept(s.disk, s'.disk, task.path);
    OnlyWriter(task, s, s', w);
  }

  lemma RenameStaysExclusive(task: Task, s: State, s': State, w: nat)
    requires Sensible(task) && Exclusive(task, s) && Rename(task, s, s', w)
    ensures Exclusive(task, s')
  {
    assert InFile(s, w) && OwnFile(task, s, w);
    var t, payload := TemporaryName(task.path), task.payloads[w];
    MoveKeepsValid(s.disk, t, task.path);
    MoveReplaces(s.disk, t, task.path, payload, Allowed(task));
    assert Some(payload) in Allowed(task);
    assert Allowed(task) + {Some(payload)} == Allowed(task);
    forall v | InFile(s', v) ensures false { assert InFile(s, v); }
  }

  lemma StopStaysExclusive(task: Task, s: State, s': State, w: nat)
    requires Sensible(task) && Exclusive(task, s) && Stop(task, s, s', w)
    ensures Exclusive(task, s')
  {
    forall v | InFile(s', v) ensures InFile(s, v) && v != w { }
    if s'.disk != s.disk {
      assert InFile(s, w);
      UnlinkKeeps(s.disk, TemporaryName(task.path), task.path);
      assert Kept(s.disk, s'.disk, task.path);
    }
  }

  lemma SyncStaysExclusive(task: Task, s: State, s': State, w: nat)
    requires Exclusive(task, s) && SyncDirectory(s, s', w)
    ensures Exclusive(task, s')
  {
    FsyncKeeps(s.disk, task.path);
    assert Kept(s.disk, s'.disk, task.path);
    forall v | InFile(s', v) ensures InFile(s, v) && OwnFile(task, s', v) { assert InFile(s, v) && OwnFile(task, s, v); }
  }

  lemma OrderlyStaysExclusive(task: Task, s: State, s': State)
    requires Sensible(task) && Exclusive(task, s) && Orderly(task, s, s')
    ensures Exclusive(task, s')
  {
    if w, ino :| Open(task, s, s', w, ino) { OpenStaysExclusive(task, s, s', w, ino); }
    else if w, n :| WriteChunk(task, s, s', w, n) { ChunkStaysExclusive(task, s, s', w, n); }
    else if w :| Fsync(task, s, s', w) { FsyncStaysExclusive(task, s, s', w); }
    else if w :| Rename(task, s, s', w) { RenameStaysExclusive(task, s, s', w); }
    else if w :| SyncDirectory(s, s', w) { SyncStaysExclusive(task, s, s', w); }
    else { var w :| Stop(task, s, s', w); StopStaysExclusive(task, s, s', w); }
  }

  /**
   Any number of writers, in any interleaving in which nobody opens the temporary file while
   another is between its open and its rename: in every state the record is whole.
   */
  lemma {:induction false} OrderlyWritersAreSafe(task: Task, path: seq<State>, i: nat)
    requires Sensible(task) && IsPath(task, path) && Exclusive(task, path[0]) && i < |path|
    ensures Exclusive(task, path[i]) && Trustworthy(task, path[i].disk)
  {
    if i > 0 {
      OrderlyWritersAreSafe(task, path, i - 1);
      assert StepAt(task, path, i - 1);
      OrderlyStaysExclusive(task, path[i - 1], path[i]);
    }
    CrashSafeIsTrustworthy(task, path[i].disk);
  }

  // ---------------------------------------------------------------------------
  // Two writers at a time
  // ---------------------------------------------------------------------------

  ghost predicate LeadsTo(task: Task, s: State, t: State)
  {
    exists path: seq<State> :: IsPath(task, path) && path[0] == s && path[|path| - 1] == t
  }

  lemma Nothing(task: Task, s: State)
    ensures LeadsTo(task, s, s)
  {
    assert IsPath(task, [s]);
  }

  lemma OneMore(task: Task, s: State, t: State, u: State)
    requires LeadsTo(task, s, t) && Orderly(task, t, u)
    ensures LeadsTo(task, s, u)
  {
    var path: seq<State> :| IsPath(task, path) && path[0] == s && path[|path| - 1] == t;
    var longer := path + [u];
    forall i: nat | i + 1 < |longer| ensures StepAt(task, longer, i) {
      if i < |path| - 1 { assert StepAt(task, path, i); }
    }
    assert IsPath(task, longer) && longer[0] == s && longer[|longer| - 1] == u;
  }

  /** The writer's last system calls but the rename, whatever the file holds by now. */
  lemma Completes(task: Task, s0: State, s: State, v: nat) returns (t: State)
    requires LeadsTo(task, s0, s) && v in task.payloads && v in s.writers && s.writers[v].Writing?
    requires s.writers[v].ino in s.disk.inodes && s.writers[v].offset <= |task.payloads[v]|
    ensures LeadsTo(task, s0, t) && t.writers == s.writers[v := Flushed(s.writers[v].ino)]
    ensures t.disk == s.disk.(inodes := t.disk.inodes) && t.disk.inodes.Keys == s.disk.inodes.Keys
  {
    t := s;
    var ino, offset, size := s.writers[v].ino, s.writers[v].offset, |task.payloads[v]|;
    if offset < size {
      var data := Overwrite(s.disk.inodes[ino].data, offset, task.payloads[v][offset..size]);
      t := State(SetInode(s.disk, ino, data, false), s.writers[v := Writing(ino, size)]);
      assert WriteChunk(task, s, t, v, size - offset);
      WritingIsOrderly(task, s, t, v);
      OneMore(task, s0, s, t);
    }
    var u := State(SetInode(t.disk, ino, t.disk.inodes[ino].data, true), t.writers[v := Flushed(ino)]);
    assert Fsync(task, t, u, v);
    WritingIsOrderly(task, t, u, v);
    OneMore(task, s0, t, u);
    t := u;
  }

  /** A step of a writer that is there already is no open. */
  lemma WritingIsOrderly(task: Task, s: State, s': State, v: nat)
    requires Next(task, s, s') && v in s.writers && s'.writers.Keys == s.writers.Keys
    ensures Orderly(task, s, s')
  {
    assert forall w :: w in s'.writers ==> w in s.writers.Keys;
  }

  /** A rename of a file that somebody changed since its last fsync cannot be trusted. */
  lemma UnflushedRename(task: Task, s0: State, s: State, v: nat) returns (t: State)
    requires LeadsTo(task, s0, s) && v in s.writers && s.writers[v].Flushed? && Valid(s.disk)
    requires var name := TemporaryName(task.path);
             name in s.disk.dir && s.disk.dir[name] in s.disk.inodes && !s.disk.inodes[s.disk.dir[name]].flushed
    ensures LeadsTo(task, s0, t) && !Trustworthy(task, t.disk)
  {
    var name := TemporaryName(task.path);
    t := State(Perform(s.disk, Move(name, task.path, s.disk.dir[name])), s.writers[v := Published]);
    assert Rename(task, s, t, v);
    WritingIsOrderly(task, s, t, v);
    OneMore(task, s0, s, t);
    assert t.disk.dir in t.disk.outcomes;
    UnflushedIsUntrustworthy(task, t.disk);
  }

  /** What an open does to the writer that is in the file: it empties the file under its hands. */
  lemma OpenEmpties(task: Task, s: State, s': State, w: nat, ino: nat, v: nat)
    requires Sensible(task) && Exclusive(task, s) && Open(task, s, s', w, ino) && InFile(s, v)
    ensures v != w && s'.writers == s.writers[w := Writing(s.writers[v].ino, 0)]
    ensures s'.disk == SetInode(s.disk, s.writers[v].ino, [], false) && Valid(s'.disk)
    ensures TemporaryName(task.path) in s'.disk.dir && s'.disk.dir[TemporaryName(task.path)] == s.writers[v].ino
  {
    assert OwnFile(task, s, v);
    OpenedIsStaged(s.disk, task.path, ino);
  }

  lemma OverlapTears(task: Task, s: State, s': State, w: nat, ino: nat, v: nat) returns (t: State)
    requires Sensible(task) && Exclusive(task, s) && Open(task, s, s', w, ino) && InFile(s, v)
    ensures LeadsTo(task, s', t) && !Trustworthy(task, t.disk)
  {
    assert OwnFile(task, s, v);
    OpenEmpties(task, s, s', w, ino, v);
    Nothing(task, s');
    if s.writers[v].Flushed? {
      t := UnflushedRename(task, s', s', v);
    } else {
      var u := Completes(task, s', s', v);
      var file := s.writers[v].ino;
      var data := Overwrite(u.disk.inodes[file].data, 0, task.payloads[w][0..1]);
      t := State(SetInode(u.disk, file, data, false), u.writers[w := Writing(file, 1)]);
      assert WriteChunk(task, u, t, w, 1);
      WritingIsOrderly(task, u, t, w);
      OneMore(task, s', u, t);
      StillValid(s'.disk, t.disk);
      t := UnflushedRename(task, s', t, v);
    }
  }

  /** `Valid` is about names and numbers, not about what is in a file. */
  lemma StillValid(d: Disk, e: Disk)
    requires Valid(d) && e == d.(inodes := e.inodes) && d.inodes.Keys <= e.inodes.Keys
    ensures Valid(e)
  {
  }

  /**
   Exactly when an open of the temporary file is harmless. Whatever the writers that are under way
   do from here -- as long as no further one opens the file while another is in it -- the record
   stays whole in every state and after every power loss, if and only if nobody is between its own
   open and its rename at that moment.
   */
  lemma OpenIsHarmless(task: Task, s: State, s': State, w: nat, ino: nat)
    requires Sensible(task) && Exclusive(task, s) && Open(task, s, s', w, ino)
    ensures NobodyInFile(s)
            <==> forall t :: LeadsTo(task, s', t) ==> Trustworthy(task, t.disk)
  {
    if NobodyInFile(s) {
      OpenStaysExclusive(task, s, s', w, ino);
      forall t | LeadsTo(task, s', t) ensures Trustworthy(task, t.disk) {
        var path: seq<State> :| IsPath(task, path) && path[0] == s' && path[|path| - 1] == t;
        OrderlyWritersAreSafe(task, path, |path| - 1);
      }
    } else {
      var v :| v in s.writers && InFile(s, v);
      var t := OverlapTears(task, s, s', w, ino, v);
    }
  }

  /**
   The condition is about what may follow, and cannot be read off a finished interleaving: two
   writers in the file at once may still leave a whole record. Here the second one opens the file
   just before the first one's rename, finishes first, and is what that rename publishes.
   */
  lemma OverlapCanBeLucky(task: Task, s: State, s': State, w: nat, ino: nat, v: nat) returns (t: State)
    requires Sensible(task) && Exclusive(task, s) && Open(task, s, s', w, ino) && InFile(s, v) && s.writers[v].Flushed?
    ensures LeadsTo(task, s', t) && v in t.writers && t.writers[v] == Published && Trustworthy(task, t.disk)
    ensures Read(t.disk, task.path) == Some(task.payloads[w])
  {
    assert OwnFile(task, s, v);
    OpenEmpties(task, s, s', w, ino, v);
    Nothing(task, s');
    var file, payload := s.writers[v].ino, task.payloads[w];
    var name := TemporaryName(task.path);
    var data := Overwrite([], 0, payload[0..|payload|]);
    assert data == payload;
    var written := State(SetInode(s'.disk, file, payload, false), s'.writers[w := Writing(file, |payload|)]);
    assert WriteChunk(task, s', written, w, |payload|);
    WritingIsOrderly(task, s', written, w);
    OneMore(task, s', s', written);
    var flushed := State(SetInode(written.disk, file, payload, true), written.writers[w := Flushed(file)]);
    assert Fsync(task, written, flushed, w);
    WritingIsOrderly(task, written, flushed, w);
    OneMore(task, s', written, flushed);
    t := State(Perform(flushed.disk, Move(name, task.path, file)), flushed.writers[v := Published]);
    assert Rename(task, flushed, t, v);
    WritingIsOrderly(task, flushed, t, v);
    OneMore(task, s', flushed, t);
    LuckyRenameIsSafe(task, s.disk, flushed.disk, file, payload);
  }

  lemma LuckyRenameIsSafe(task: Task, d: Disk, e: Disk, file: nat, payload: Bytes)
    requires Sensible(task) && Valid(d) && CrashSafe(d, task.path, Allowed(task)) && Some(payload) in Allowed(task)
    requires TemporaryName(task.path) in d.dir && d.dir[TemporaryName(task.path)] == file
    requires e == SetInode(SetInode(SetInode(d, file, [], false), file, payload, false), file, payload, true)
    ensures var f := Perform(e, Move(TemporaryName(task.path), task.path, file));
            Trustworthy(task, f) && Read(f, task.path) == Some(payload)
  {
    var t := TemporaryName(task.path);
    assert e == SetInode(d, file, payload, true);
    TemporaryDataKeeps(d, t, payload, true, task.path);
    assert Kept(d, e, task.path);
    MoveKeepsValid(e, t, task.path);
    MoveReplaces(e, t, task.path, payload, Allowed(task));
    assert Allowed(task) + {Some(payload)} == Allowed(task);
    CrashSafeIsTrustworthy(task, Perform(e, Move(t, task.path, file)));
  }
}
