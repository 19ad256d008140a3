/**
 A small file system with power loss.

 A directory operation is visible at once and durable only after the directory is fsynced; until
 then a power loss keeps any subset of the operations since the last fsync, each of them whole (a
 rename is one operation). File data is durable only after the file is fsynced; until then a power
 loss may leave anything in it.
 */
module DurableFiles {
  import opened Wrappers

  newtype Byte = b: int | 0 <= b < 256
  type Bytes = seq<Byte>

  type Directory = map<string, nat>

  datatype Inode = Inode(data: Bytes, flushed: bool)

  /** `outcomes`: the directory contents a power loss may leave behind. */
  datatype Disk = Disk(inodes: map<nat, Inode>, dir: Directory, outcomes: set<Directory>)

  datatype DirectoryOp = Link(name: string, ino: nat) | Unlink(name: string) | Move(from: string, to: string, ino: nat)

  function Apply(dir: Directory, op: DirectoryOp): Directory
  {
    match op
    case Link(name, ino) => dir[name := ino]
    case Unlink(name) => dir - {name}
    case Move(from, to, ino) => (dir - {from})[to := ino]
  }

  /** An operation that is not durable yet doubles what may be on the disk. */
  function Perform(d: Disk, op: DirectoryOp): Disk
  {
    d.(dir := Apply(d.dir, op), outcomes := d.outcomes + set p | p in d.outcomes :: Apply(p, op))
  }

  function FsyncDirectory(d: Disk): Disk
  {
    d.(outcomes := {d.dir})
  }

  function SetInode(d: Disk, ino: nat, data: Bytes, flushed: bool): Disk
  {
    d.(inodes := d.inodes[ino := Inode(data, flushed)])
  }

  function Read(d: Disk, name: string): Option<Bytes>
  {
    if name in d.dir && d.dir[name] in d.inodes then Some(d.inodes[d.dir[name]].data) else None
  }

  /** What the host finds after a power loss in state `d`. */
  ghost predicate Survives(d: Disk, after: Disk)
  {
    && after.dir in d.outcomes && after.outcomes == {after.dir}
    && after.inodes.Keys == d.inodes.Keys
    && (forall i :: i in d.inodes ==> after.inodes[i].flushed)
    && (forall i :: i in d.inodes && d.inodes[i].flushed ==> after.inodes[i].data == d.inodes[i].data)
  }

  predicate IsTemporary(name: string)
  {
    |name| >= 4 && name[|name| - 4..] == ".tmp"
  }

  ghost predicate Injective(dir: Directory)
  {
    forall a, b :: a in dir && b in dir && dir[a] == dir[b] ==> a == b
  }

  /** Truncating a visible temporary file damages no other name, whatever a power loss keeps. */
  ghost predicate Valid(d: Disk)
  {
    && d.dir in d.outcomes
    && (forall p :: p in d.outcomes ==> Injective(p))
    && (forall p, n :: p in d.outcomes && n in p ==> p[n] in d.inodes)
    && (forall t, p, n :: t in d.dir && IsTemporary(t) && p in d.outcomes && n in p && p[n] == d.dir[t] ==> n == t)
  }

  ghost predicate SafeIn(d: Disk, p: Directory, name: string, allowed: set<Option<Bytes>>)
  {
    if name in p then
      p[name] in d.inodes && d.inodes[p[name]].flushed && Some(d.inodes[p[name]].data) in allowed
    else
      None in allowed
  }

  /** Now and after a power loss, `name` reads as one of `allowed`. */
  ghost predicate CrashSafe(d: Disk, name: string, allowed: set<Option<Bytes>>)
  {
    d.dir in d.outcomes && forall p :: p in d.outcomes ==> SafeIn(d, p, name, allowed)
  }

  /** `CrashSafe` says what it should: about reading now, about reading after any power loss, and again after that. */
  lemma CrashSafeReads(d: Disk, after: Disk, name: string, allowed: set<Option<Bytes>>)
    requires Valid(d) && CrashSafe(d, name, allowed)
    ensures Read(d, name) in allowed
    ensures Survives(d, after) ==> Read(after, name) in allowed && Valid(after) && CrashSafe(after, name, allowed)
  {
    assert SafeIn(d, d.dir, name, allowed);
    if Survives(d, after) {
      assert SafeIn(d, after.dir, name, allowed);
      assert SafeIn(after, after.dir, name, allowed);
    }
  }

  lemma WiderIsSafe(d: Disk, name: string, allowed: set<Option<Bytes>>, more: set<Option<Bytes>>)
    requires CrashSafe(d, name, allowed) && allowed <= more
    ensures CrashSafe(d, name, more)
  {
    forall p | p in d.outcomes ensures SafeIn(d, p, name, more) { assert SafeIn(d, p, name, allowed); }
  }

  /** `name` is in view with fsynced content `data`. */
  predicate VisibleAs(d: Disk, name: string, data: Bytes)
  {
    name in d.dir && d.dir[name] in d.inodes && d.inodes[d.dir[name]] == Inode(data, true)
  }

  /** Going from `d` to `e` took nothing away from what is known about `name`. */
  ghost predicate Kept(d: Disk, e: Disk, name: string)
  {
    && (forall allowed :: CrashSafe(d, name, allowed) ==> CrashSafe(e, name, allowed))
    && (forall data :: VisibleAs(d, name, data) ==> VisibleAs(e, name, data))
  }

  lemma FsyncKeeps(d: Disk, name: string)
    requires Valid(d)
    ensures Valid(FsyncDirectory(d)) && Kept(d, FsyncDirectory(d), name)
    ensures forall data :: VisibleAs(d, name, data) ==> CrashSafe(FsyncDirectory(d), name, {Some(data)})
  {
    var e := FsyncDirectory(d);
    forall allowed | CrashSafe(d, name, allowed) ensures CrashSafe(e, name, allowed) {
      assert SafeIn(d, d.dir, name, allowed) && SafeIn(e, e.dir, name, allowed);
    }
    forall data | VisibleAs(d, name, data) ensures CrashSafe(e, name, {Some(data)}) {
      assert SafeIn(e, e.dir, name, {Some(data)});
    }
  }

  /** A visible temporary file's data is private to it: changing it touches no other name. */
  lemma TemporaryDataKeeps(d: Disk, t: string, data: Bytes, flushed: bool, name: string)
    requires Valid(d) && IsTemporary(t) && t in d.dir && name != t
    ensures Valid(SetInode(d, d.dir[t], data, flushed)) && Kept(d, SetInode(d, d.dir[t], data, flushed), name)
  {
    var e := SetInode(d, d.dir[t], data, flushed);
    assert Injective(d.dir);
    forall allowed | CrashSafe(d, name, allowed) ensures CrashSafe(e, name, allowed) {
      forall p | p in e.outcomes ensures SafeIn(e, p, name, allowed) { assert SafeIn(d, p, name, allowed); }
    }
  }

  lemma LinkKeepsValid(d: Disk, t: string, ino: nat)
    requires Valid(d) && ino !in d.inodes && IsTemporary(t)
    ensures Valid(Perform(SetInode(d, ino, [], false), Link(t, ino)))
  {
    var e := Perform(SetInode(d, ino, [], false), Link(t, ino));
    forall p | p in e.outcomes ensures Injective(p) && (forall n :: n in p ==> p[n] in e.inodes)
    {
      if p !in d.outcomes { var q :| q in d.outcomes && p == Apply(q, Link(t, ino)); assert Injective(q); }
    }
  }

  lemma LinkKeeps(d: Disk, t: string, ino: nat, name: string)
    requires Valid(d) && ino !in d.inodes && IsTemporary(t) && name != t
    ensures var e := Perform(SetInode(d, ino, [], false), Link(t, ino)); Valid(e) && Kept(d, e, name)
  {
    LinkKeepsValid(d, t, ino);
    var e := Perform(SetInode(d, ino, [], false), Link(t, ino));
    forall allowed | CrashSafe(d, name, allowed) ensures CrashSafe(e, name, allowed) {
      forall p | p in e.outcomes ensures SafeIn(e, p, name, allowed) {
        if p in d.outcomes {
          assert SafeIn(d, p, name, allowed);
        } else {
          var q :| q in d.outcomes && p == Apply(q, Link(t, ino));
          assert SafeIn(d, q, name, allowed);
        }
      }
    }
  }

  lemma UnlinkKeeps(d: Disk, t: string, name: string)
    requires Valid(d) && name != t
    ensures Valid(Perform(d, Unlink(t))) && Kept(d, Perform(d, Unlink(t)), name)
  {
    var e := Perform(d, Unlink(t));
    forall p | p in e.outcomes ensures Injective(p) && (forall n :: n in p ==> p[n] in e.inodes)
    {
      if p !in d.outcomes { var q :| q in d.outcomes && p == Apply(q, Unlink(t)); assert Injective(q); }
    }
    forall allowed | CrashSafe(d, name, allowed) ensures CrashSafe(e, name, allowed) {
      forall p | p in e.outcomes ensures SafeIn(e, p, name, allowed) {
        if p in d.outcomes {
          assert SafeIn(d, p, name, allowed);
        } else {
          var q :| q in d.outcomes && p == Apply(q, Unlink(t));
          assert SafeIn(d, q, name, allowed);
        }
      }
    }
  }

  /** Renaming a fsynced temporary file over `target` is good for the target and harmless for the rest. */
  lemma MoveKeepsValid(d: Disk, t: string, target: string)
    requires Valid(d) && IsTemporary(t) && !IsTemporary(target) && t in d.dir
    ensures Valid(Perform(d, Move(t, target, d.dir[t])))
  {
    var op := Move(t, target, d.dir[t]);
    var e := Perform(d, op);
    forall p | p in e.outcomes ensures Injective(p) && (forall n :: n in p ==> p[n] in e.inodes)
    {
      if p !in d.outcomes { var q :| q in d.outcomes && p == Apply(q, op); assert Injective(q); }
    }
    forall u, p, n | u in e.dir && IsTemporary(u) && p in e.outcomes && n in p && p[n] == e.dir[u] ensures n == u {
      assert u != t && e.dir[u] == d.dir[u] && Injective(d.dir);
      if p !in d.outcomes {
        var q :| q in d.outcomes && p == Apply(q, op);
        if n != target { assert q[n] == d.dir[u]; }
      }
    }
  }

  lemma MoveKeeps(d: Disk, t: string, target: string, name: string)
    requires Valid(d) && t in d.dir && name != t && name != target
    ensures Kept(d, Perform(d, Move(t, target, d.dir[t])), name)
  {
    var op := Move(t, target, d.dir[t]);
    var e := Perform(d, op);
    forall allowed | CrashSafe(d, name, allowed) ensures CrashSafe(e, name, allowed) {
      forall p | p in e.outcomes ensures SafeIn(e, p, name, allowed) {
        if p in d.outcomes {
          assert SafeIn(d, p, name, allowed);
        } else {
          var q :| q in d.outcomes && p == Apply(q, op);
          assert SafeIn(d, q, name, allowed);
        }
      }
    }
  }

  /** The old content or the whole new one; and the new one is in view. */
  lemma MoveReplaces(d: Disk, t: string, target: string, data: Bytes, allowed: set<Option<Bytes>>)
    requires Valid(d) && t != target && VisibleAs(d, t, data) && CrashSafe(d, target, allowed)
    ensures var e := Perform(d, Move(t, target, d.dir[t]));
            CrashSafe(e, target, allowed + {Some(data)}) && VisibleAs(e, target, data)
  {
    var op := Move(t, target, d.dir[t]);
    var e := Perform(d, op);
    forall p | p in e.outcomes ensures SafeIn(e, p, target, allowed + {Some(data)}) {
      if p in d.outcomes {
        assert SafeIn(d, p, target, allowed);
      } else {
        var q :| q in d.outcomes && p == Apply(q, op);
      }
    }
  }
}
