/**
 * The desktop shell: a single-instance lock file with a 60-second staleness
 * window, an append-only application log, and the commands offered to the UI.
 * The backend is not spawned or supervised here; the base URL is fixed and the
 * backend always counts as ready. The filesystem is a map from path to node;
 * the clock and the process id are parameters.
 */
module DesktopShell {
  import opened Wrappers
  import opened Text

  /** A path as its list of components: `join` appends one. */
  type Path = seq<string>

  /** A filesystem node: a file with its content and its modification time when readable, or a directory. */
  datatype Node = File(content: string, mtime: Option<int>) | Directory

  const LockFileName := "app.lock"
  const AppLogName := "app.log"
  const FixedApiBase := "http://127.0.0.1:8000"
  const AlreadyRunning := "Another instance is already running"
  const WindowsOnly := "Windows only"

  /** Clock readings are nanoseconds since the Unix epoch. */
  const Second: int := 1_000_000_000
  /** A lock younger than this belongs to a running instance. */
  const LockWindow: int := 60 * Second
  /** The age given to a lock whose modification time lies in the future. */
  const FutureAge: int := 999 * Second

  /** `LOCALAPPDATA`, else `USERPROFILE`, else the empty path. */
  function LocalAppData(env: map<string, string>): Path {
    if "LOCALAPPDATA" in env then [env["LOCALAPPDATA"]]
    else if "USERPROFILE" in env then [env["USERPROFILE"]]
    else []
  }

  function AppBaseDir(env: map<string, string>): Path {
    LocalAppData(env) + ["AI_Mentor"]
  }

  function AppLogPath(env: map<string, string>): Path {
    AppBaseDir(env) + ["logs", AppLogName]
  }

  function LockFilePath(env: map<string, string>): Path {
    AppBaseDir(env) + ["runtime", LockFileName]
  }

  /** The lock and the log never share a path. */
  lemma LockAndLogDiffer(env: map<string, string>)
    ensures LockFilePath(env) != AppLogPath(env)
  {
    var base := AppBaseDir(env);
    assert LockFilePath(env)[|base|] == "runtime";
    assert AppLogPath(env)[|base|] == "logs";
  }

  // ---------------------------------------------------------------- decimal rendering

  // `to_string` of an unsigned integer and the `{}` of a timestamp are `Text.NatToString`;
  // `ParseDecimal` reads such digits back, so that the rendering can be shown lossless.

  function DigitValue(c: char): nat {
    if '0' <= c <= '9' then (c as int - '0' as int) as nat else 0
  }

  function ParseDecimal(s: string): nat
    decreases |s|
  {
    if s == [] then 0 else ParseDecimal(s[..|s| - 1]) * 10 + DigitValue(s[|s| - 1])
  }

  /** Reading back a rendered number gives the number: the pid and the timestamps are written without loss. */
  lemma {:induction false} DecimalRoundTrip(n: nat)
    ensures ParseDecimal(NatToString(n)) == n
    decreases n
  {
    var s := NatToString(n);
    if n < 10 {
      assert s[..0] == [];
      assert DigitValue(DigitChar(n)) == n;
    } else {
      DecimalRoundTrip(n / 10);
      assert s[..|s| - 1] == NatToString(n / 10);
      assert DigitValue(DigitChar(n % 10)) == n % 10;
    }
  }

  /** Distinct numbers render differently. */
  lemma DecimalInjective(m: nat, n: nat)
    requires NatToString(m) == NatToString(n)
    ensures m == n
  {
    DecimalRoundTrip(m);
    DecimalRoundTrip(n);
  }

  // ---------------------------------------------------------------- the lock

  /** `now.duration_since(modified)`, or 999 s when the modification time is later than now. */
  function Age(now: int, modified: int): int {
    if modified <= now then now - modified else FutureAge
  }

  /** The lock belongs to a running instance: an existing file whose readable modification time is under 60 s old. */
  predicate LockHeld(nodes: map<Path, Node>, lock: Path, now: int) {
    lock in nodes && nodes[lock].File? && nodes[lock].mtime.Some? && Age(now, nodes[lock].mtime.value) < LockWindow
  }

  /** A lock modified in the future is stale, whatever its content. */
  lemma FutureLockIsStale(nodes: map<Path, Node>, lock: Path, now: int)
    requires lock in nodes && nodes[lock].File? && nodes[lock].mtime.Some? && nodes[lock].mtime.value > now
    ensures !LockHeld(nodes, lock, now)
  {
  }

  /** A lock that is missing, a directory, or without a readable timestamp never blocks. */
  lemma UnreadableLockIsFree(nodes: map<Path, Node>, lock: Path, now: int)
    requires lock !in nodes || nodes[lock].Directory? || nodes[lock].mtime.None?
    ensures !LockHeld(nodes, lock, now)
  {
  }

  /** A lock written at `t` blocks exactly during the 60 s that follow. */
  lemma {:induction false} FreshLockWindow(nodes: map<Path, Node>, lock: Path, content: string, t: int, now: int)
    requires lock in nodes && nodes[lock] == File(content, Some(t))
    ensures LockHeld(nodes, lock, now) <==> t <= now < t + LockWindow
  {
    if now < t {
      assert Age(now, t) == FutureAge;
      assert FutureAge >= LockWindow;
    }
  }

  /** The filesystem and the environment of the shell. */
  class Shell {
    var nodes: map<Path, Node>
    /** Paths the operating system refuses to write or delete. */
    var failing: set<Path>
    const env: map<string, string>

    constructor(nodes0: map<Path, Node>, failing0: set<Path>, env0: map<string, string>)
      ensures nodes == nodes0 && failing == failing0 && env == env0
    {
      nodes := nodes0;
      failing := failing0;
      env := env0;
    }

    /** A write to `p` succeeds. */
    predicate Writable(p: Path)
      reads this
    {
      p !in failing && !(p in nodes && nodes[p].Directory?)
    }

    /**
     * `try_single_instance`: refuse while another instance holds the lock; otherwise
     * write the process id into the lock file, which may itself fail.
     */
    method TrySingleInstance(now: int, pid: nat) returns (r: Result<(), string>)
      modifies this
      ensures failing == old(failing)
      ensures LockHeld(old(nodes), LockFilePath(env), now) ==> r == Err(AlreadyRunning) && nodes == old(nodes)
      ensures !LockHeld(old(nodes), LockFilePath(env), now) && old(Writable(LockFilePath(env))) ==>
                r == Ok(()) && nodes == old(nodes)[LockFilePath(env) := File(NatToString(pid), Some(now))]
      ensures !LockHeld(old(nodes), LockFilePath(env), now) && !old(Writable(LockFilePath(env))) ==>
                r.Err? && r.error != AlreadyRunning && nodes == old(nodes)
    {
      var lockPath := LockFilePath(env);
      if lockPath in nodes && nodes[lockPath].File? {
        var modified := nodes[lockPath].mtime;
        if modified.Some? {
          var age := if modified.value <= now then now - modified.value else FutureAge;
          if age < LockWindow {
            return Err(AlreadyRunning);
          }
        }
      }
      r := WriteFile(lockPath, NatToString(pid), now);
    }

    /** `fs::write`: replace the file's content, or fail and change nothing. */
    method WriteFile(p: Path, content: string, now: int) returns (r: Result<(), string>)
      modifies this
      ensures failing == old(failing)
      ensures old(Writable(p)) ==> r == Ok(()) && nodes == old(nodes)[p := File(content, Some(now))]
      ensures !old(Writable(p)) ==> r.Err? && r.error != AlreadyRunning && nodes == old(nodes)
    {
      if p !in failing && !(p in nodes && nodes[p].Directory?) {
        nodes := nodes[p := File(content, Some(now))];
        r := Ok(());
      } else {
        r := Err("write failed");
      }
    }

    /** `remove_lock`: delete the lock file, ignoring every error. */
    method RemoveLock()
      modifies this
      ensures failing == old(failing)
      ensures var lock := LockFilePath(env);
              if lock in old(nodes) && old(nodes)[lock].File? && lock !in failing
              then nodes == old(nodes) - {lock}
              else nodes == old(nodes)
    {
      var lock := LockFilePath(env);
      if lock in nodes && nodes[lock].File? && lock !in failing {
        nodes := nodes - {lock};
      }
    }

    /** `app_log`: append `[secs] msg` and a newline to the log; a failure changes nothing and is not reported. */
    method AppLog(now: int, msg: string)
      modifies this
      ensures failing == old(failing)
      ensures var p := AppLogPath(env);
              if old(Writable(p))
              then nodes == old(nodes)[p := File(OldContent(old(nodes), p) + LogLine(now, msg), Some(now))]
              else nodes == old(nodes)
    {
      var path := AppLogPath(env);
      var ts := if now >= 0 then now / Second else 0;
      if path !in failing && !(path in nodes && nodes[path].Directory?) {
        var before := if path in nodes && nodes[path].File? then nodes[path].content else "";
        var line := "[" + NatToString(ts) + "] " + msg + "\n";
        assert line == LogLine(now, msg);
        nodes := nodes[path := File(before + line, Some(now))];
      }
    }

    /** `log_app_message`. */
    method LogAppMessage(now: int, message: string)
      modifies this
      ensures failing == old(failing)
      ensures var p := AppLogPath(env);
              if old(Writable(p))
              then nodes == old(nodes)[p := File(OldContent(old(nodes), p) + LogLine(now, message), Some(now))]
              else nodes == old(nodes)
    {
      AppLog(now, message);
    }

    /**
     * `run` up to the window loop: exit with status 1 when the lock is refused; otherwise
     * log the build id and the start line.
     */
    method Start(now: int, pid: nat, buildId: string, exePath: string) returns (exitCode: Option<int>)
      modifies this
      ensures failing == old(failing)
      ensures exitCode.Some? <==> LockHeld(old(nodes), LockFilePath(env), now) || !old(Writable(LockFilePath(env)))
      ensures exitCode.Some? ==> exitCode.value == 1 && nodes == old(nodes)
      ensures exitCode.None? ==> LockFilePath(env) in nodes && nodes[LockFilePath(env)] == File(NatToString(pid), Some(now))
      ensures exitCode.None? && old(Writable(AppLogPath(env))) ==>
                AppLogPath(env) in nodes && nodes[AppLogPath(env)].File? &&
                nodes[AppLogPath(env)].content == OldContent(old(nodes), AppLogPath(env)) + StartLines(now, buildId, exePath)
      ensures exitCode.None? && !old(Writable(AppLogPath(env))) ==>
                nodes == old(nodes)[LockFilePath(env) := File(NatToString(pid), Some(now))]
    {
      var r := TrySingleInstance(now, pid);
      if r.Err? {
        return Some(1);
      }
      LockAndLogDiffer(env);
      LogStart(now, buildId, exePath);
      exitCode := None;
    }

    /** The setup hook: log the build id, then the start line. */
    method LogStart(now: int, buildId: string, exePath: string)
      modifies this
      ensures failing == old(failing)
      ensures var log := AppLogPath(env);
              if old(Writable(log))
              then nodes == old(nodes)[log := File(OldContent(old(nodes), log) + StartLines(now, buildId, exePath), Some(now))]
              else nodes == old(nodes)
    {
      AppLogTwice(now, "BUILD_ID=" + buildId, "APP_START exe=" + exePath + " backend=Scheduled_Task fixed_url=" + FixedApiBase);
    }

    /** Two appends in a row add both lines, in order. */
    method AppLogTwice(now: int, first: string, second: string)
      modifies this
      ensures failing == old(failing)
      ensures var log := AppLogPath(env);
              if old(Writable(log))
              then nodes == old(nodes)[log := File(OldContent(old(nodes), log) + (LogLine(now, first) + LogLine(now, second)), Some(now))]
              else nodes == old(nodes)
    {
      ghost var log := AppLogPath(env);
      ghost var before := OldContent(nodes, log);
      AppLog(now, first);
      AppLog(now, second);
      assert before + (LogLine(now, first) + LogLine(now, second)) == (before + LogLine(now, first)) + LogLine(now, second);
    }

    /** The window's close request removes the lock. */
    method OnCloseRequested()
      modifies this
      ensures failing == old(failing)
      ensures var lock := LockFilePath(env);
              if lock in old(nodes) && old(nodes)[lock].File? && lock !in failing
              then nodes == old(nodes) - {lock}
              else nodes == old(nodes)
    {
      RemoveLock();
    }
  }

  /** The content a log append starts from: the file's, or nothing when there is no file yet. */
  function OldContent(nodes: map<Path, Node>, p: Path): string {
    if p in nodes && nodes[p].File? then nodes[p].content else ""
  }

  /** `"[{secs}] {msg}\n"`, with the seconds since the epoch, or 0 before it. */
  function LogLine(now: int, msg: string): string {
    "[" + NatToString(if now >= 0 then now / Second else 0) + "] " + msg + "\n"
  }

  /** The two lines a successful start appends to the log. */
  function StartLines(now: int, buildId: string, exePath: string): string {
    LogLine(now, "BUILD_ID=" + buildId) +
    LogLine(now, "APP_START exe=" + exePath + " backend=Scheduled_Task fixed_url=" + FixedApiBase)
  }

  /** A log line starts with the bracketed seconds and ends with the message and a newline. */
  lemma LogLineShape(now: int, msg: string)
    ensures var line := LogLine(now, msg);
            var secs := if now >= 0 then now / Second else 0;
            line[0] == '[' && line[|line| - 1] == '\n' &&
            line[1..1 + |NatToString(secs)|] == NatToString(secs) &&
            line[1 + |NatToString(secs)|..3 + |NatToString(secs)|] == "] " &&
            line[3 + |NatToString(secs)|..|line| - 1] == msg &&
            ParseDecimal(line[1..1 + |NatToString(secs)|]) == secs
  {
    var secs := if now >= 0 then now / Second else 0;
    DecimalRoundTrip(secs);
  }

  /**
   * Once a start has taken the lock, any other start during the next 60 s is refused,
   * and one after that window succeeds when the lock can be written.
   */
  lemma MutualExclusion(nodes: map<Path, Node>, lock: Path, pid: nat, t: int, later: int)
    requires lock in nodes && nodes[lock] == File(NatToString(pid), Some(t))
    ensures t <= later < t + LockWindow ==> LockHeld(nodes, lock, later)
    ensures later >= t + LockWindow || later < t ==> !LockHeld(nodes, lock, later)
  {
    FreshLockWindow(nodes, lock, NatToString(pid), t, later);
  }

  // ---------------------------------------------------------------- commands

  /** `get_backend_base_url`: always the fixed local address. */
  function GetBackendBaseUrl(): (r: Result<string, string>)
    ensures r == Ok("http://127.0.0.1:8000")
  {
    Ok(FixedApiBase)
  }

  /** `is_backend_ready`: no supervisor exists, so the answer is always yes. */
  function IsBackendReady(): (r: bool)
    ensures r
  {
    true
  }

  /**
   * `run_backend_task`: Windows only; otherwise the scheduler is asked to run the backend job,
   * and only a failure to launch `schtasks` is an error (its exit status is not looked at).
   */
  function RunBackendTask(isWindows: bool, launch: Result<int, string>): (r: Result<(), string>)
    ensures !isWindows ==> r == Err("Windows only")
    ensures isWindows ==> (r.Ok? <==> launch.Ok?)
    ensures isWindows && launch.Err? ==> r == Err(launch.error)
  {
    if !isWindows then Err(WindowsOnly)
    else match launch
      case Err(e) => Err(e)
      case Ok(_) => Ok(())
  }
}
