// The stale-pid lock file that keeps a second merge-close daemon from running:
// `FileLockGuard` in merge_close_daemon.py.

module MergeCloseLock {
  import opened Common

  /** What the lock path holds: nothing, a file that cannot be read, or text. */
  datatype LockFile = Absent | Unreadable | Content(text: string)

  /** What `os.kill(pid, 0)` answers for a pid. */
  datatype Probe = Alive | NoSuchProcess | PermissionDenied

  /** The operating system's view of which pids exist. */
  type PidProbe = int -> Probe

  /** `_read_pid`: the stripped file text read as an int; an unreadable file, blank
      text or text that is not an int gives no pid. */
  function ReadPid(f: LockFile): Option<int> {
    match f
    case Content(text) =>
      var raw := Strip(text);
      if raw == [] then None else ParseInt(raw)
    case _ => None
  }

  /** `_pid_is_alive`: only a missing process counts as dead; a permission error
      means some other user's process holds the pid. */
  predicate PidIsAlive(p: Probe) {
    p != NoSuchProcess
  }

  /** The text the guard writes into the lock file. */
  function PidLine(pid: int): string {
    IntToString(pid) + "\n"
  }

  function AlreadyRunning(pid: int): string {
    "merge-close daemon already running with pid " + IntToString(pid)
  }

  /** `acquire` on a lock file: the file afterwards and the error raised, if any.
      It refuses exactly when an existing file names a pid that answers, and then
      leaves the file alone; otherwise the file ends up holding the caller's pid,
      a stale or unreadable one being replaced. */
  function AcquireSpec(f: LockFile, pid: int, probe: PidProbe): (r: (LockFile, Option<string>))
    ensures r.1.Some? <==> f != Absent && ReadPid(f).Some? && PidIsAlive(probe(ReadPid(f).value))
    ensures r.1.Some? ==> r.0 == f && r.1.value == AlreadyRunning(ReadPid(f).value)
    ensures r.1.None? ==> r.0 == Content(PidLine(pid))
  {
    if f == Absent then (Content(PidLine(pid)), None)
    else
      match ReadPid(f)
      case Some(owner) =>
        if PidIsAlive(probe(owner)) then (f, Some(AlreadyRunning(owner)))
        else (Content(PidLine(pid)), None)
      case None => (Content(PidLine(pid)), None)
  }

  /** The written pid reads back. */
  lemma {:induction false} PidLineReadsBack(pid: int)
    ensures ReadPid(Content(PidLine(pid))) == Some(pid)
  {
    var s := IntToString(pid);
    var line := s + "\n";
    assert s[0] == '-' || IsAsciiDigit(s[0]);
    assert IsAsciiDigit(s[|s| - 1]) by {
      if pid < 0 {
        assert s[|s| - 1] == NatToString(-pid)[|NatToString(-pid)| - 1];
      }
    }
    assert TrimStart(line) == line;
    assert line[..|line| - 1] == s;
    assert TrimEnd(line) == TrimEnd(s);
    assert TrimEnd(s) == s;
    IntToStringParses(pid);
  }

  /** Mutual exclusion: while the process that acquired the lock is alive, any
      other acquire on the same file is refused, naming that process. */
  lemma ExclusiveWhileAlive(f: LockFile, first: int, second: int, probe: PidProbe)
    requires AcquireSpec(f, first, probe).1.None? && PidIsAlive(probe(first))
    ensures var held := AcquireSpec(f, first, probe).0;
      AcquireSpec(held, second, probe) == (held, Some(AlreadyRunning(first)))
  {
    PidLineReadsBack(first);
  }

  /** A lock left behind by a process that is gone is taken over. */
  lemma StaleLockTakenOver(f: LockFile, first: int, second: int, probe: PidProbe)
    requires AcquireSpec(f, first, probe).1.None? && probe(first) == NoSuchProcess
    ensures AcquireSpec(AcquireSpec(f, first, probe).0, second, probe) == (Content(PidLine(second)), None)
  {
    PidLineReadsBack(first);
  }

  /** The lock path, shared by every guard opened on it. */
  class LockPath {
    var file: LockFile

    constructor (file: LockFile)
      ensures this.file == file
    {
      this.file := file;
    }
  }

  /** `FileLockGuard`: the lock path, the caller's pid and whether this guard holds
      the lock. */
  class FileLockGuard {
    const path: LockPath
    const pid: int
    const probe: PidProbe
    var acquired: bool

    constructor (path: LockPath, pid: int, probe: PidProbe)
      ensures this.path == path && this.pid == pid && this.probe == probe && !acquired
    {
      this.path := path;
      this.pid := pid;
      this.probe := probe;
      acquired := false;
    }

    /** `acquire`: create the file exclusively; if it exists, refuse when its pid is
        alive, else remove it and create it again. */
    method Acquire() returns (error: Option<string>)
      modifies this, path
      ensures (path.file, error) == AcquireSpec(old(path.file), pid, probe)
      ensures acquired == (error.None? || old(acquired))
    {
      if path.file != Absent {
        var existing := ReadPid(path.file);
        if existing.Some? && PidIsAlive(probe(existing.value)) {
          return Some(AlreadyRunning(existing.value));
        }
        path.file := Absent;
      }
      path.file := Content(PidLine(pid));
      acquired := true;
      return None;
    }

    /** `release`: remove the file only if this guard acquired it. */
    method Release()
      modifies this, path
      ensures !acquired
      ensures path.file == if old(acquired) then Absent else old(path.file)
    {
      if !acquired {
        return;
      }
      path.file := Absent;
      acquired := false;
    }
  }
}
