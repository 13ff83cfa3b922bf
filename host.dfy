/** The machine the provisioning scripts run on: an abstract filesystem, the
    external commands they spawn (answered by an oracle), and the log of the
    commands issued, each with the filesystem it saw. */
module Host {

  datatype Option<+T> = None | Some(value: T)

  /** A filesystem path as its list of components; the repository root is a
      path like any other, so no operation depends on a working directory. */
  type Path = seq<string>

  datatype Node = File(content: string, executable: bool) | Dir

  type FileMap = map<Path, Node>

  predicate IsDir(fs: FileMap, p: Path) { p in fs && fs[p].Dir? }

  predicate IsFile(fs: FileMap, p: Path) { p in fs && fs[p].File? }

  /** `os.access(p, os.X_OK)`: directories count as searchable. */
  predicate IsExecutable(fs: FileMap, p: Path) { p in fs && (fs[p].Dir? || fs[p].executable) }

  /** A file the kernel will `execve`. */
  predicate IsProgram(fs: FileMap, p: Path) { p in fs && fs[p].File? && fs[p].executable }

  /** `k` lies strictly inside the directory `d`. */
  predicate Within(d: Path, k: Path) { |d| < |k| && k[..|d|] == d }

  /** The directories `mkdir(parents=True)` walks through: every non-empty prefix. */
  function Prefixes(p: Path): set<Path> { set i | 1 <= i <= |p| :: p[..i] }

  /** The path as `str()` prints it (components joined with `/`). */
  function Render(p: Path): string
  {
    if |p| == 0 then "" else if |p| == 1 then p[0] else p[0] + "/" + Render(p[1..])
  }

  /** An absolute path as `str()` prints it. */
  function Abs(p: Path): string { "/" + Render(p) }

  /** A path component as pathlib keeps it: non-empty, without a separator. */
  predicate Plain(name: string) { |name| > 0 && '/' !in name }

  /** The components of a `/`-separated path string (the inverse of `Render`). */
  function Components(s: string): (r: Path)
    ensures |r| > 0
    decreases |s|
  {
    if |s| == 0 then [""]
    else if s[0] == '/' then [""] + Components(s[1..])
    else PushChar(s[0], Components(s[1..]))
  }

  /** Puts `c` in front of the first component. */
  function PushChar(c: char, t: Path): (r: Path)
    requires |t| > 0
    ensures |r| == |t| && r[0] == [c] + t[0] && r[1..] == t[1..]
  {
    [[c] + t[0]] + t[1..]
  }

  lemma {:induction false} ComponentsOfName(a: string)
    requires '/' !in a
    ensures Components(a) == [a]
    decreases |a|
  {
    if |a| > 0 {
      ComponentsOfName(a[1..]);
      assert [a[0]] + a[1..] == a;
    }
  }

  lemma {:induction false} ComponentsOfJoin(a: string, b: string)
    requires '/' !in a
    ensures Components(a + "/" + b) == [a] + Components(b)
    decreases |a|
  {
    if |a| == 0 {
      assert a + "/" + b == "/" + b;
      assert ("/" + b)[1..] == b;
    } else {
      var s := a + "/" + b;
      assert s[0] == a[0] && s[1..] == a[1..] + "/" + b;
      ComponentsOfJoin(a[1..], b);
      assert [a[0]] + a[1..] == a;
    }
  }

  /** Printing a path and splitting it at the separators gives the path back. */
  lemma {:induction false} ComponentsOfRender(p: Path)
    requires |p| > 0 && forall i :: 0 <= i < |p| ==> Plain(p[i])
    ensures Components(Render(p)) == p
    decreases |p|
  {
    if |p| == 1 {
      ComponentsOfName(p[0]);
    } else {
      ComponentsOfRender(p[1..]);
      ComponentsOfJoin(p[0], Render(p[1..]));
    }
  }

  // ---------------------------------------------------------------------------
  // Filesystem primitives (pathlib / shutil), as functions on a FileMap

  /** `Path.mkdir(parents=True, exist_ok=True)` fails only when a component on
      the way, or the path itself, is a file. */
  predicate CanMakeDirs(fs: FileMap, p: Path) { forall q :: q in Prefixes(p) ==> !IsFile(fs, q) }

  /** What a successful `mkdir -p` leaves: every missing prefix becomes a directory. */
  function WithDirs(fs: FileMap, p: Path): (r: FileMap)
    ensures r.Keys == fs.Keys + Prefixes(p)
    ensures forall k :: k in fs ==> r[k] == fs[k]
    ensures CanMakeDirs(fs, p) ==> forall q :: q in Prefixes(p) ==> IsDir(r, q)
  {
    fs + map q | q in Prefixes(p) && q !in fs :: Dir
  }

  /** Opening `p` for writing needs its parent to be a directory (the top of
      the tree always is) and `p` not to be a directory. */
  predicate CanWrite(fs: FileMap, p: Path)
  {
    |p| > 0 && (|p| == 1 || IsDir(fs, p[..|p| - 1])) && !IsDir(fs, p)
  }

  /** A written file holds exactly `content`; an existing file keeps its mode. */
  function Written(fs: FileMap, p: Path, content: string): (r: FileMap)
    ensures r.Keys == fs.Keys + {p}
    ensures r[p].File? && r[p].content == content
    ensures forall k :: k in fs && k != p ==> r[k] == fs[k]
  {
    fs[p := File(content, IsFile(fs, p) && fs[p].executable)]
  }

  /** `k` is `d` itself or lies inside it. */
  predicate Under(d: Path, k: Path) { |d| <= |k| && k[..|d|] == d }

  /** Neither path lies under the other: they head two separate subtrees. */
  predicate Apart(a: Path, b: Path) { !Under(a, b) && !Under(b, a) }

  /** Paths that part at some component are apart. */
  lemma ApartAt(a: Path, b: Path, n: int)
    requires 0 <= n < |a| && n < |b| && a[n] != b[n]
    ensures Apart(a, b)
  {
  }

  /** Nothing under one of two apart paths is under the other, or on the
      way to it. */
  lemma ApartUnder(a: Path, b: Path, k: Path)
    requires Apart(a, b) && Under(a, k)
    ensures !Under(b, k) && k !in Prefixes(b)
  {
  }

  /** `shutil.rmtree(p, ignore_errors=True)`: `p` goes with everything under
      it; on a file the call fails, and the failure is ignored. */
  function WithoutTree(fs: FileMap, p: Path): (r: FileMap)
    ensures IsFile(fs, p) ==> r == fs
    ensures !IsFile(fs, p) ==> forall k :: k in r <==> k in fs && !Under(p, k)
    ensures forall k :: k in r ==> k in fs && r[k] == fs[k]
  {
    if IsFile(fs, p) then fs else map k | k in fs && !Under(p, k) :: fs[k]
  }

  /** The names `iterdir()` lists for directory `d`. */
  function Children(fs: FileMap, d: Path): set<string>
  {
    set k | k in fs && |k| == |d| + 1 && k[..|d|] == d :: k[|d|]
  }

  /** `src` itself and everything under it, as paths relative to `src`. */
  function Relative(fs: FileMap, src: Path): set<Path>
  {
    set k | k in fs && |src| <= |k| && k[..|src|] == src :: k[|src|..]
  }

  lemma RelativeIn(fs: FileMap, src: Path, r: Path)
    requires r in Relative(fs, src)
    ensures src + r in fs
  {
    var k :| k in fs && |src| <= |k| && k[..|src|] == src && r == k[|src|..];
    assert src + r == k;
  }

  /** What `shutil.copytree(src, dst)` (or `copy2` for a file) adds: the entry
      at `src` and everything under it, at the same relative place under `dst`. */
  function Grafted(fs: FileMap, src: Path, dst: Path): (r: FileMap)
    ensures forall x :: x in Relative(fs, src) ==> src + x in fs && dst + x in r && r[dst + x] == fs[src + x]
    ensures forall k :: k in r ==> |dst| <= |k| && k[..|dst|] == dst && k[|dst|..] in Relative(fs, src)
  {
    var keys := set x | x in Relative(fs, src) :: dst + x;
    var r := map k | k in keys :: (RelativeIn(fs, src, k[|dst|..]); fs[src + k[|dst|..]]);
    forall x | x in Relative(fs, src) ensures src + x in fs && (dst + x)[|dst|..] == x {
      RelativeIn(fs, src, x);
    }
    r
  }

  // ---------------------------------------------------------------------------
  // Commands, the log, and what a script ends with

  /** An external step: a subprocess (argv run in directory cwd), or the
      in-process creation of a virtual environment (`venv.EnvBuilder`). */
  datatype Action = Proc(argv: seq<string>, cwd: Path) | CreateVenv(dir: Path)

  /** One issued step, its status, and the filesystem as it was when issued. */
  datatype Event = Ran(action: Action, code: int, before: FileMap)

  datatype Error =
    | CalledProcessError(code: int)   // `subprocess.run(check=True)` saw a non-zero status
    | FileSystemError(path: Path)     // a mkdir or write on `path` raised
    | VenvCreationError(dir: Path)    // `venv.EnvBuilder.create` raised
    | ProgramNotFound(program: string) // `subprocess.run` could not start argv[0]

  /** The program a step names (`argv[0]`). */
  function Program(a: Action): string
  {
    if a.Proc? && |a.argv| > 0 then a.argv[0] else ""
  }

  /** A program given as a relative path (it has a separator, and does not
      start with one) is looked up relative to the directory the child runs
      in; names without a separator are looked up on `PATH`, which lies
      outside the modelled tree, like the absolute path of the interpreter. */
  predicate RelativeProgram(s: string) { '/' in s && s[0] != '/' }

  /** Whether `subprocess.run` can start the step in `fs`. */
  predicate Launchable(fs: FileMap, a: Action)
  {
    match a
    case CreateVenv(_) => true
    case Proc(argv, cwd) =>
      |argv| > 0 && (RelativeProgram(argv[0]) ==> IsProgram(fs, cwd + Components(argv[0])))
  }

  /** Between two steps of a fail-fast script: the log extends `log0` by the
      first steps of `plan`, and all of them succeeded. */
  ghost predicate Running(log0: seq<Event>, plan: seq<Action>, trace: seq<Event>)
  {
    && |log0| <= |trace| && trace[..|log0|] == log0
    && |trace| - |log0| <= |plan|
    && Completed(trace[|log0|..], plan[..|trace| - |log0|])
  }

  /** How a fail-fast script ends after issuing `events` of `plan`: status 0
      exactly when the whole plan succeeded, a failed step's status as the
      script's, and any other ending before the plan is done, every step so
      far having succeeded; a program that could not be started is the next
      step's. */
  ghost predicate Ends(events: seq<Event>, plan: seq<Action>, o: Outcome)
  {
    && FailFast(events, plan)
    && (o == Exit(0) <==> Completed(events, plan))
    && (o.Exit? && o.code != 0 ==> |events| > 0 && events[|events| - 1].code == o.code)
    && (!o.Exit? ==> AllSucceeded(events) && |events| < |plan|)
    && (o.Raised? && o.error.ProgramNotFound? ==> o.error.program == Program(plan[|events|]))
  }

  /** How a script ends. */
  datatype Outcome =
    | Exit(code: int)                          // `sys.exit(code)` or `return code`
    | Abort(message: string)                   // `sys.exit(message)`: message on stderr, status 1
    | Raised(error: Error)                     // an uncaught exception: traceback, status 1
    | Exec(file: string, argv: seq<string>)    // `os.execvpe`: the process becomes argv

  /** The process status an observer sees, for every outcome but a hand-off. */
  function ExitStatus(o: Outcome): int
    requires !o.Exec?
  {
    match o
    case Exit(c) => c
    case Abort(_) => 1
    case Raised(_) => 1
  }

  function Actions(events: seq<Event>): (r: seq<Action>)
    ensures |r| == |events|
    ensures forall i :: 0 <= i < |events| ==> r[i] == events[i].action
  {
    if events == [] then [] else [events[0].action] + Actions(events[1..])
  }

  predicate AllSucceeded(events: seq<Event>)
  {
    forall i :: 0 <= i < |events| ==> events[i].code == 0
  }

  /** The steps issued are the first ones of `plan`, in order. */
  predicate Issued(events: seq<Event>, plan: seq<Action>)
  {
    |events| <= |plan| && forall i :: 0 <= i < |events| ==> events[i].action == plan[i]
  }

  /** Fail-fast execution of `plan` so far: a prefix of it was issued, and
      every step but the last one issued succeeded. */
  predicate FailFast(events: seq<Event>, plan: seq<Action>)
  {
    Issued(events, plan) && forall i :: 0 <= i < |events| - 1 ==> events[i].code == 0
  }

  /** Every step of `plan` was issued and succeeded. */
  predicate Completed(events: seq<Event>, plan: seq<Action>)
  {
    Issued(events, plan) && |events| == |plan| && AllSucceeded(events)
  }

  /** The host. A command's status and its effect on the files are given by
      the oracle functions, from the files, the log so far and the command;
      an effect only creates or overwrites entries. */
  class Machine {
    var fs: FileMap
    var trace: seq<Event>
    const status: (FileMap, seq<Event>, Action) -> int
    const effect: (FileMap, seq<Event>, Action) -> FileMap
    /** `os.name` */
    const osName: string
    /** `os.environ` */
    const environ: map<string, string>
    /** `sys.executable` */
    const interpreter: string

    constructor (fs0: FileMap, status: (FileMap, seq<Event>, Action) -> int,
                 effect: (FileMap, seq<Event>, Action) -> FileMap,
                 osName: string, environ: map<string, string>, interpreter: string)
      ensures this.fs == fs0 && this.trace == []
      ensures this.status == status && this.effect == effect
      ensures this.osName == osName && this.environ == environ && this.interpreter == interpreter
    {
      this.fs := fs0;
      this.trace := [];
      this.status := status;
      this.effect := effect;
      this.osName := osName;
      this.environ := environ;
      this.interpreter := interpreter;
    }

    /** Runs a step to completion and logs it; a program that cannot be
        found is not started, and nothing changes. */
    method Spawn(a: Action) returns (started: bool, code: int)
      modifies this
      ensures started == Launchable(old(fs), a)
      ensures started ==> code == status(old(fs), old(trace), a)
      ensures started ==> trace == old(trace) + [Ran(a, code, old(fs))]
      ensures started ==> fs == old(fs) + effect(old(fs), old(trace), a)
      ensures !started ==> trace == old(trace) && fs == old(fs)
    {
      var seen, log := fs, trace;
      started := Launchable(seen, a);
      code := 0;
      if started {
        code := status(seen, log, a);
        trace := log + [Ran(a, code, seen)];
        fs := seen + effect(seen, log, a);
      }
    }

    /** `Path.mkdir(parents=True, exist_ok=True)`; false where it would raise. */
    method MakeDirs(p: Path) returns (ok: bool)
      modifies this`fs
      ensures ok == CanMakeDirs(old(fs), p)
      ensures fs == if ok then WithDirs(old(fs), p) else old(fs)
    {
      ok := CanMakeDirs(fs, p);
      if ok {
        fs := WithDirs(fs, p);
      }
    }

    /** `open(p, "w").write(content)` / `Path.write_text`; false where it would raise. */
    method WriteText(p: Path, content: string) returns (ok: bool)
      modifies this`fs
      ensures ok == CanWrite(old(fs), p)
      ensures fs == if ok then Written(old(fs), p, content) else old(fs)
    {
      ok := CanWrite(fs, p);
      if ok {
        fs := Written(fs, p, content);
      }
    }

    /** `shutil.rmtree(p, ignore_errors=True)` */
    method RemoveTree(p: Path)
      modifies this`fs
      ensures fs == WithoutTree(old(fs), p)
    {
      fs := WithoutTree(fs, p);
    }

    /** `shutil.copytree(src, dst)` onto a missing `dst`. */
    method CopyTree(src: Path, dst: Path)
      modifies this`fs
      ensures fs == old(fs) + Grafted(old(fs), src, dst)
    {
      fs := fs + Grafted(fs, src, dst);
    }

    /** `shutil.copy2(src, dst)` of a file onto a missing `dst`. */
    method CopyFile(src: Path, dst: Path)
      requires src in fs
      modifies this`fs
      ensures fs == old(fs)[dst := old(fs)[src]]
    {
      fs := fs[dst := fs[src]];
    }
  }
}
