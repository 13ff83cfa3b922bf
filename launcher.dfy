/** The launcher `scripts/run.py`: check the arguments, make sure the target's
    project and environment exist, install its requirements (pinned by
    default), prepare a Django project, and hand the process over to gunicorn
    serving the target on its own local port. */
module Launcher {
  import opened Host
  import opened Argv

  datatype Target = Flask | Fastapi | Django

  /** The target named on the command line. */
  function TargetOf(name: string): Option<Target>
  {
    if name == "flask" then Some(Flask)
    else if name == "fastapi" then Some(Fastapi)
    else if name == "django" then Some(Django)
    else None
  }

  function Name(t: Target): string
  {
    match t
    case Flask => "flask"
    case Fastapi => "fastapi"
    case Django => "django"
  }

  /** Exactly the three names select a target, each its own. */
  lemma TargetOfName(name: string, t: Target)
    ensures TargetOf(name) == Some(t) <==> name == Name(t)
  {
  }

  function ProjectDir(t: Target): string
  {
    match t
    case Flask => "flask-demo"
    case Fastapi => "fastapi-demo"
    case Django => "django-demo"
  }

  function Port(t: Target): string
  {
    match t
    case Flask => "5001"
    case Fastapi => "8001"
    case Django => "8002"
  }

  /** `choose_reqs`: the lock file for `--stable`, the loose requirements
      otherwise, in the project directory. */
  function ChooseReqs(proj: Path, mode: string): (r: Path)
    ensures |r| == |proj| + 1 && r[..|proj|] == proj
    ensures r[|proj|] == "requirements-lock.txt" <==> mode == "--stable"
    ensures r[|proj|] in {"requirements-lock.txt", "requirements.txt"}
  {
    if mode == "--stable" then proj + ["requirements-lock.txt"] else proj + ["requirements.txt"]
  }

  /** The mode argument, `--stable` when absent. */
  function Mode(argv: seq<string>): string
  {
    if |argv| >= 3 then argv[2] else "--stable"
  }

  predicate ValidMode(mode: string) { mode == "--stable" || mode == "--latest" }

  // ---------------------------------------------------------------------------
  // The commands, relative to the repository root the script moves to

  function VenvBin(t: Target): Path { [ProjectDir(t), ".venv", "bin"] }

  function Python(t: Target): string { Render(VenvBin(t) + ["python"]) }

  function NewSh(root: Path, t: Target): Action { Proc(["bash", "scripts/new.sh", Name(t)], root) }

  function Helper(root: Path, t: Target): Action
  {
    Proc(["bash", "scripts/venv_project.sh", ProjectDir(t)], root)
  }

  function PipInstall(root: Path, t: Target, mode: string): Action
  {
    Proc([Python(t), "-m", "pip", "install", "-r", Render(ChooseReqs([ProjectDir(t)], mode))], root)
  }

  /** The steps before the server: the scaffold when FastAPI's or Django's
      project directory is missing, the environment helper, the install. */
  function Prelude(fs: FileMap, root: Path, t: Target, mode: string): seq<Action>
  {
    (if t != Flask && !IsDir(fs, root + [ProjectDir(t)]) then [NewSh(root, t)] else [])
    + [Helper(root, t), PipInstall(root, t, mode)]
  }

  /** Inside the Django project: `startproject` when `manage.py` is not there
      yet, then the migrations. The programs are the environment's own,
      named relative to the project directory they run in. */
  function StartProject(root: Path): Action
  {
    Proc([Render([".venv", "bin", "django-admin"]), "startproject", "config", "."], root + ["django-demo"])
  }

  function Migrate(root: Path): Action
  {
    Proc([Render([".venv", "bin", "python"]), "manage.py", "migrate"], root + ["django-demo"])
  }

  function ManagePy(root: Path): Path { root + ["django-demo", "manage.py"] }

  /** Which programs Django's steps inside the project name: the script's
      own, or the corrected ones (see `AsWrittenLooksInNestedDir`). */
  datatype Build = AsWritten | Intended

  function StartStep(root: Path, b: Build): Action
  {
    if b == AsWritten then StartProjectAsWritten(root) else StartProject(root)
  }

  function MigrateStep(root: Path, b: Build): Action
  {
    if b == AsWritten then MigrateAsWritten(root) else Migrate(root)
  }

  function Tail(fs: FileMap, root: Path, b: Build): seq<Action>
  {
    (if IsFile(fs, ManagePy(root)) then [] else [StartStep(root, b)]) + [MigrateStep(root, b)]
  }

  /** The program the process becomes, and its command line. */
  function ExecFile(t: Target): Path
  {
    VenvBin(t) + [if t == Django then "gunicorn" else "python"]
  }

  function ExecArgv(t: Target): seq<string>
  {
    [Render(ExecFile(t))] + ServerOptions(t)
  }

  /** The words after `argv[0]`. */
  function ServerOptions(t: Target): seq<string>
  {
    match t
    case Flask =>
      ["-m", "gunicorn", "--chdir", "flask-demo", "-w", "2", "-b", "127.0.0.1:" + Port(t), "app:app"]
    case Fastapi =>
      ["-m", "gunicorn", "--chdir", "fastapi-demo", "-w", "2",
       "-k", "uvicorn.workers.UvicornWorker", "-b", "127.0.0.1:" + Port(t), "main:app"]
    case Django =>
      ["--chdir", "django-demo", "-w", "2", "-b", "127.0.0.1:" + Port(t), "config.wsgi:application"]
  }

  // ---------------------------------------------------------------------------
  // The server command line

  /** The hand-over runs the named file as its own `argv[0]`, from inside the
      project's environment, with two workers bound to the target's port on
      the loopback address and the project as working directory; only FastAPI
      asks for the uvicorn worker class. Each option is given once, so any
      reading of a repeated option agrees with `OptionValue`. */
  lemma ExecCommandLine(t: Target)
    ensures ExecArgv(t)[0] == Render(ExecFile(t))
    ensures ExecFile(t)[..3] == [ProjectDir(t), ".venv", "bin"]
    ensures OptionValue(ExecArgv(t), "--chdir") == Some(ProjectDir(t))
    ensures OptionValue(ExecArgv(t), "-w") == Some("2")
    ensures OptionValue(ExecArgv(t), "-b") == Some("127.0.0.1:" + Port(t))
    ensures AfterLastColon(OptionValue(ExecArgv(t), "-b").value) == Port(t)
    ensures OptionValue(ExecArgv(t), "-k") == if t == Fastapi then Some("uvicorn.workers.UvicornWorker") else None
    ensures AtMostOnce(ExecArgv(t), "--chdir") && AtMostOnce(ExecArgv(t), "-w")
    ensures AtMostOnce(ExecArgv(t), "-b") && AtMostOnce(ExecArgv(t), "-k")
  {
    PortOfBind("127.0.0.1", Port(t));
    assert "127.0.0.1:" + Port(t) == "127.0.0.1" + ":" + Port(t);
    var w, a := Render(ExecFile(t)), ServerOptions(t);
    assert w[0] == ProjectDir(t)[0];
    OptionsAfter(w, a, "--chdir");
    OptionsAfter(w, a, "-w");
    OptionsAfter(w, a, "-b");
    OptionsAfter(w, a, "-k");
    match t
    case Flask => FlaskOptions();
    case Fastapi => FastapiOptions();
    case Django => DjangoOptions();
  }

  /** The words of the option lists that have the same length are told
      apart by one character. */
  lemma WordsDiffer()
    ensures "-m" != "-w" && "-m" != "-b" && "-m" != "-k"
    ensures "-w" != "-b" && "-w" != "-k" && "-b" != "-k"
    ensures "--chdir" != "app:app"
  {
    assert "-m"[1] != "-w"[1] && "-m"[1] != "-b"[1] && "-m"[1] != "-k"[1];
    assert "-w"[1] != "-b"[1] && "-w"[1] != "-k"[1] && "-b"[1] != "-k"[1];
    assert "--chdir"[0] != "app:app"[0];
  }

  lemma FlaskOptions()
    ensures var a := ServerOptions(Flask);
      && OptionValue(a, "--chdir") == Some("flask-demo") && OptionValue(a, "-w") == Some("2")
      && OptionValue(a, "-b") == Some("127.0.0.1:" + Port(Flask)) && OptionValue(a, "-k") == None
      && AtMostOnce(a, "--chdir") && AtMostOnce(a, "-w") && AtMostOnce(a, "-b") && AtMostOnce(a, "-k")
  {
    var a := ServerOptions(Flask);
    WordsDiffer();
    OptionAt(a, "--chdir", 2);
    OptionAt(a, "-w", 4);
    OptionAt(a, "-b", 6);
    OptionValueAbsent(a, "-k");
    OnceAbsent(a, "-k");
  }

  lemma FastapiOptions()
    ensures var a := ServerOptions(Fastapi);
      && OptionValue(a, "--chdir") == Some("fastapi-demo") && OptionValue(a, "-w") == Some("2")
      && OptionValue(a, "-b") == Some("127.0.0.1:" + Port(Fastapi)) && OptionValue(a, "-k") == Some("uvicorn.workers.UvicornWorker")
      && AtMostOnce(a, "--chdir") && AtMostOnce(a, "-w") && AtMostOnce(a, "-b") && AtMostOnce(a, "-k")
  {
    FastapiDir();
    FastapiServer();
  }

  lemma FastapiDir()
    ensures var a := ServerOptions(Fastapi);
      && OptionValue(a, "--chdir") == Some("fastapi-demo") && OptionValue(a, "-w") == Some("2")
      && AtMostOnce(a, "--chdir") && AtMostOnce(a, "-w")
  {
    var a := ServerOptions(Fastapi);
    WordsDiffer();
    OptionAt(a, "--chdir", 2);
    OptionAt(a, "-w", 4);
  }

  lemma FastapiServer()
    ensures var a := ServerOptions(Fastapi);
      && OptionValue(a, "-b") == Some("127.0.0.1:" + Port(Fastapi)) && OptionValue(a, "-k") == Some("uvicorn.workers.UvicornWorker")
      && AtMostOnce(a, "-b") && AtMostOnce(a, "-k")
  {
    var a := ServerOptions(Fastapi);
    WordsDiffer();
    OptionAt(a, "-k", 6);
    OptionAt(a, "-b", 8);
  }

  lemma DjangoOptions()
    ensures var a := ServerOptions(Django);
      && OptionValue(a, "--chdir") == Some("django-demo") && OptionValue(a, "-w") == Some("2")
      && OptionValue(a, "-b") == Some("127.0.0.1:" + Port(Django)) && OptionValue(a, "-k") == None
      && AtMostOnce(a, "--chdir") && AtMostOnce(a, "-w") && AtMostOnce(a, "-b") && AtMostOnce(a, "-k")
  {
    var a := ServerOptions(Django);
    WordsDiffer();
    OptionAt(a, "--chdir", 0);
    OptionAt(a, "-w", 2);
    OptionAt(a, "-b", 4);
    OptionValueAbsent(a, "-k");
    OnceAbsent(a, "-k");
  }

  /** No two targets listen on the same port. */
  lemma PortsDistinct(t: Target, u: Target)
    requires t != u
    ensures Port(t) != Port(u)
  {
  }

  /** The relative file name handed over resolves, from the repository root,
      to the file in the project's environment. */
  lemma ExecResolves(root: Path, t: Target)
    ensures root + Components(Render(ExecFile(t))) == root + ExecFile(t)
  {
    ComponentsOfRender(ExecFile(t));
  }

  // ---------------------------------------------------------------------------
  // Django's programs, as written and as intended

  /** As written: the programs of `startproject` and `migrate` are named
      relative to the repository root, but run in the project directory. */
  function StartProjectAsWritten(root: Path): Action
  {
    Proc([Render(VenvBin(Django) + ["django-admin"]), "startproject", "config", "."], root + ["django-demo"])
  }

  function MigrateAsWritten(root: Path): Action
  {
    Proc([Render(VenvBin(Django) + ["python"]), "manage.py", "migrate"], root + ["django-demo"])
  }

  lemma ResolvesIn(dir: Path, p: Path)
    requires |p| > 0 && forall i :: 0 <= i < |p| ==> Plain(p[i])
    ensures RelativeProgram(Render(p)) <==> |p| > 1
    ensures dir + Components(Render(p)) == dir + p
  {
    ComponentsOfRender(p);
    if |p| > 1 {
      assert Render(p) == p[0] + "/" + Render(p[1..]);
      assert Render(p)[|p[0]|] == '/';
      assert Render(p)[0] == p[0][0];
    } else {
      assert Render(p) == p[0];
    }
  }

  /** As written, the child looks for its program in a `django-demo`
      directory inside the project. */
  lemma AsWrittenLooksInNestedDir(root: Path)
    ensures RelativeProgram(StartProjectAsWritten(root).argv[0]) && RelativeProgram(MigrateAsWritten(root).argv[0])
    ensures StartProjectAsWritten(root).cwd + Components(StartProjectAsWritten(root).argv[0])
         == root + ["django-demo", "django-demo", ".venv", "bin", "django-admin"]
    ensures MigrateAsWritten(root).cwd + Components(MigrateAsWritten(root).argv[0])
         == root + ["django-demo", "django-demo", ".venv", "bin", "python"]
  {
    var p := VenvBin(Django) + ["django-admin"];
    var q := VenvBin(Django) + ["python"];
    ResolvesIn(root + ["django-demo"], p);
    ResolvesIn(root + ["django-demo"], q);
  }

  /** A concrete tree that shows it: the environment is in place, and still
      neither Django step can be started. */
  lemma AsWrittenCannotStart()
    ensures var fs := map[["django-demo", ".venv", "bin", "django-admin"] := File("", true),
                          ["django-demo", ".venv", "bin", "python"] := File("", true)];
      && IsProgram(fs, ["django-demo", ".venv", "bin", "django-admin"])
      && !Launchable(fs, StartProjectAsWritten([])) && !Launchable(fs, MigrateAsWritten([]))
  {
    AsWrittenLooksInNestedDir([]);
  }

  /** As intended: each Django step starts exactly when the environment's own
      program is there, the same interpreter the install step used. */
  lemma IntendedStartProject(fs: FileMap, root: Path)
    ensures Launchable(fs, StartProject(root)) <==> IsProgram(fs, root + ["django-demo", ".venv", "bin", "django-admin"])
  {
    var p := [".venv", "bin", "django-admin"];
    ResolvesIn(root + ["django-demo"], p);
    assert root + ["django-demo"] + p == root + ["django-demo", ".venv", "bin", "django-admin"];
  }

  lemma IntendedMigrate(fs: FileMap, root: Path)
    ensures Launchable(fs, Migrate(root)) <==> IsProgram(fs, root + ["django-demo", ".venv", "bin", "python"])
    ensures root + Components(Python(Django)) == root + ["django-demo", ".venv", "bin", "python"]
  {
    var p := [".venv", "bin", "python"];
    ResolvesIn(root + ["django-demo"], p);
    assert root + ["django-demo"] + p == root + ["django-demo", ".venv", "bin", "python"];
    ResolvesIn(root, VenvBin(Django) + ["python"]);
  }

  // ---------------------------------------------------------------------------
  // Running the steps

  /** Facts about the plan. Only FastAPI and Django scaffold, and only when
      their project directory is missing; the install always reads the
      requirements file the mode selects; `startproject` runs exactly when
      `manage.py` is missing, the migrations always. */
  lemma PreludeShape(fs: FileMap, root: Path, t: Target, mode: string)
    ensures var pre := Prelude(fs, root, t, mode);
      && (NewSh(root, t) in pre <==> t != Flask && !IsDir(fs, root + [ProjectDir(t)]))
      && pre[|pre| - 2] == Helper(root, t) && pre[|pre| - 1] == PipInstall(root, t, mode)
      && pre[|pre| - 1].argv[5] == Render([ProjectDir(t), if mode == "--stable" then "requirements-lock.txt" else "requirements.txt"])
  {
  }

  lemma TailShape(fs: FileMap, root: Path, b: Build)
    ensures StartStep(root, b) in Tail(fs, root, b) <==> !IsFile(fs, ManagePy(root))
    ensures Tail(fs, root, b)[|Tail(fs, root, b)| - 1] == MigrateStep(root, b)
    ensures Tail(fs, root, b)[0] == if IsFile(fs, ManagePy(root)) then MigrateStep(root, b) else StartStep(root, b)
  {
  }

  /** Every step issued could be started on the files as they were then. */
  ghost predicate Started(events: seq<Event>)
  {
    forall i :: 0 <= i < |events| ==> Launchable(events[i].before, events[i].action)
  }

  /** How a step run with `check=True` stops the script: with the failed
      step's status wrapped in `CalledProcessError`; or, when the next step's
      program cannot be started in `fs`, with that program's name. */
  ghost predicate Halted(events: seq<Event>, plan: seq<Action>, fs: FileMap, o: Outcome)
  {
    && FailFast(events, plan)
    && match o
       case Raised(CalledProcessError(code)) =>
         |events| > 0 && code != 0 && events[|events| - 1].code == code
       case Raised(ProgramNotFound(program)) =>
         && AllSucceeded(events) && |events| < |plan|
         && !Launchable(fs, plan[|events|]) && program == Program(plan[|events|])
       case _ => false
  }

  lemma HaltedExtends(events: seq<Event>, plan: seq<Action>, ext: seq<Action>, fs: FileMap, o: Outcome)
    requires Halted(events, plan, fs, o)
    ensures Halted(events, plan + ext, fs, o)
  {
    assert forall i :: 0 <= i < |plan| ==> (plan + ext)[i] == plan[i];
  }

  lemma RunningExtends(log0: seq<Event>, plan: seq<Action>, ext: seq<Action>, trace: seq<Event>)
    requires Running(log0, plan, trace)
    ensures Running(log0, plan + ext, trace)
  {
    assert (plan + ext)[..|trace| - |log0|] == plan[..|trace| - |log0|];
  }

  /** `run(cmd)` with `check=True`, as the next step of `plan`. */
  method Checked(m: Machine, a: Action, ghost log0: seq<Event>, ghost plan: seq<Action>) returns (stop: Option<Outcome>)
    requires Running(log0, plan, m.trace) && |m.trace| - |log0| < |plan| && plan[|m.trace| - |log0|] == a
    requires Started(m.trace[|log0|..])
    modifies m
    ensures |old(m.trace)| <= |m.trace| <= |old(m.trace)| + 1 && m.trace[..|old(m.trace)|] == old(m.trace)
    ensures |log0| <= |m.trace| && m.trace[..|log0|] == log0
    ensures Started(m.trace[|log0|..])
    ensures |m.trace| > |old(m.trace)| ==> m.trace[|old(m.trace)|].before == old(m.fs)
    ensures |m.trace| == |old(m.trace)| ==> m.fs == old(m.fs)
    ensures stop.None? ==>
      && Running(log0, plan, m.trace) && |m.trace| == |old(m.trace)| + 1
      && m.fs == old(m.fs) + m.effect(old(m.fs), old(m.trace), a)
    ensures stop.Some? ==> Halted(m.trace[|log0|..], plan, m.fs, stop.value)
  {
    ghost var before := m.trace[|log0|..];
    var started, code := m.Spawn(a);
    if !started {
      return Some(Raised(ProgramNotFound(Program(a))));
    }
    assert m.trace[..|log0|] == log0;
    assert m.trace[|log0|..] == before + [m.trace[|m.trace| - 1]];
    assert plan[..|m.trace| - |log0|] == plan[..|before|] + [a];
    if code != 0 {
      return Some(Raised(CalledProcessError(code)));
    }
    stop := None;
  }

  /** The scaffold when needed, the environment helper and the install. */
  method RunPrelude(m: Machine, root: Path, t: Target, mode: string) returns (stop: Option<Outcome>)
    modifies m
    ensures |old(m.trace)| <= |m.trace| && m.trace[..|old(m.trace)|] == old(m.trace)
    ensures Started(m.trace[|old(m.trace)|..])
    ensures var pre, events := Prelude(old(m.fs), root, t, mode), m.trace[|old(m.trace)|..];
      && (stop.None? ==> Running(old(m.trace), pre, m.trace) && |events| == |pre|)
      && (stop.Some? ==> Halted(events, pre, m.fs, stop.value))
  {
    ghost var log0 := m.trace;
    ghost var pre := Prelude(m.fs, root, t, mode);
    assert m.trace[..|log0|] == log0 && m.trace[|log0|..] == [];
    if t != Flask && !IsDir(m.fs, root + [ProjectDir(t)]) {
      stop := Checked(m, NewSh(root, t), log0, pre);
      if stop.Some? {
        return;
      }
    }
    stop := Checked(m, Helper(root, t), log0, pre);
    if stop.Some? {
      return;
    }
    stop := Checked(m, PipInstall(root, t, mode), log0, pre);
  }

  /** The migrations, `run(cmd, check=False)`: only a program that cannot be
      started stops the script; the status is ignored. */
  method Unchecked(m: Machine, a: Action, ghost log0: seq<Event>, ghost plan: seq<Action>) returns (stop: Option<Outcome>)
    requires Running(log0, plan, m.trace) && |m.trace| - |log0| == |plan| - 1 && plan[|plan| - 1] == a
    requires Started(m.trace[|log0|..])
    modifies m
    ensures |old(m.trace)| <= |m.trace| <= |old(m.trace)| + 1 && m.trace[..|old(m.trace)|] == old(m.trace)
    ensures |log0| <= |m.trace| && Started(m.trace[|log0|..])
    ensures |m.trace| > |old(m.trace)| ==> m.trace[|old(m.trace)|].before == old(m.fs)
    ensures |m.trace| == |old(m.trace)| ==> m.fs == old(m.fs)
    ensures var events := m.trace[|log0|..];
      && (stop.None? ==> Issued(events, plan) && |events| == |plan| && AllSucceeded(events[..|plan| - 1]))
      && (stop.Some? ==> Halted(events, plan, m.fs, stop.value) && |events| < |plan|)
  {
    ghost var done := m.trace[|log0|..];
    var started, code := m.Spawn(a);
    if !started {
      return Some(Raised(ProgramNotFound(Program(a))));
    }
    assert m.trace[..|log0|] == log0;
    assert m.trace[|log0|..] == done + [m.trace[|m.trace| - 1]];
    assert m.trace[|log0|..][..|plan| - 1] == done;
    stop := None;
  }

  /** Django's steps inside the project, once the install succeeded:
      `startproject` with `check=True` when `manage.py` is missing, then the
      migrations. */
  method RunTail(m: Machine, root: Path, b: Build, ghost log0: seq<Event>, ghost pre: seq<Action>) returns (stop: Option<Outcome>)
    requires Running(log0, pre, m.trace) && |m.trace| == |log0| + |pre|
    requires Started(m.trace[|log0|..])
    modifies m
    ensures |old(m.trace)| <= |m.trace| && m.trace[..|old(m.trace)|] == old(m.trace)
    ensures |log0| <= |m.trace| && Started(m.trace[|log0|..])
    ensures |m.trace| > |old(m.trace)| ==> m.trace[|old(m.trace)|].before == old(m.fs)
    ensures |m.trace| == |old(m.trace)| ==> m.fs == old(m.fs)
    ensures var plan, events := pre + Tail(old(m.fs), root, b), m.trace[|log0|..];
      && (stop.None? ==> Issued(events, plan) && |events| == |plan| && AllSucceeded(events[..|plan| - 1]))
      && (stop.Some? ==> Halted(events, plan, m.fs, stop.value) && |events| < |plan|)
  {
    var start, migrate := StartStep(root, b), MigrateStep(root, b);
    ghost var tail := Tail(m.fs, root, b);
    ghost var plan := pre + tail;
    ghost var fs1, log1 := m.fs, m.trace;
    TailShape(m.fs, root, b);
    assert plan[|pre|] == tail[0] && plan[|plan| - 1] == migrate;
    RunningExtends(log0, pre, tail, m.trace);
    if !IsFile(m.fs, ManagePy(root)) {
      stop := Checked(m, start, log0, plan);
      if stop.Some? {
        return;
      }
      assert |m.trace| == |log1| + 1 && m.trace[|log1|].before == fs1;
    }
    ghost var log2 := m.trace;
    stop := Unchecked(m, migrate, log0, plan);
    assert m.trace[..|log2|] == log2;
    assert |log1| < |log2| ==> m.trace[|log1|] == log2[|log1|];
  }

  /** How `main` ends for a target, from the files `fs0` it starts on to the
      files `fs` it ends on, having issued `events`: the steps issued are the
      plan's first ones, where Django's steps inside the project follow the
      files as the install left them; a failure of a checked step ends it, a
      failed migration does not; the process becomes the server only when
      every checked step succeeded and the server's program is there. */
  ghost predicate Launched(fs0: FileMap, fs: FileMap, root: Path, t: Target, mode: string, b: Build, events: seq<Event>, o: Outcome)
  {
    var pre := Prelude(fs0, root, t, mode);
    var fsP := if |events| > |pre| then events[|pre|].before else fs;
    var plan := pre + (if t == Django then Tail(fsP, root, b) else []);
    var checked := if t == Django then |plan| - 1 else |plan|;
    && Issued(events, plan) && Started(events)
    && match o
       case Exec(file, argv) =>
         && |events| == |plan| && AllSucceeded(events[..checked])
         && IsProgram(fs, root + ExecFile(t)) && file == Render(ExecFile(t)) && argv == ExecArgv(t)
       case Raised(ProgramNotFound(program)) =>
         || (Halted(events, plan, fs, o) && |events| < |plan|)
         || (&& |events| == |plan| && AllSucceeded(events[..checked])
             && !IsProgram(fs, root + ExecFile(t)) && program == Render(ExecFile(t)))
       case Raised(CalledProcessError(_)) =>
         Halted(events, plan, fs, o) && |events| <= checked
       case _ => false
  }

  /** The plan of a Django run that reached the hand-over ends with the
      migrations, and they were started. */
  lemma ServedAfterMigrating(fs0: FileMap, fs: FileMap, root: Path, mode: string, b: Build, events: seq<Event>, o: Outcome)
    requires Launched(fs0, fs, root, Django, mode, b, events, o) && o.Exec?
    ensures |events| > 0 && events[|events| - 1].action == MigrateStep(root, b)
    ensures Launchable(events[|events| - 1].before, MigrateStep(root, b))
  {
    var pre := Prelude(fs0, root, Django, mode);
    var fsP := if |events| > |pre| then events[|pre|].before else fs;
    TailShape(fsP, root, b);
    assert |events| == |pre + Tail(fsP, root, b)|;
  }

  /** As written, Django is served only if the migrations found an
      interpreter at `django-demo/django-demo/.venv/bin/python`, inside a
      nested project directory that is not part of the layout: with the
      environment only where the install put it, the script raises before the
      hand-over. */
  lemma AsWrittenServesOnlyFromNestedDir(fs0: FileMap, fs: FileMap, root: Path, mode: string, events: seq<Event>, o: Outcome)
    requires Launched(fs0, fs, root, Django, mode, AsWritten, events, o) && o.Exec?
    ensures |events| > 0 && events[|events| - 1].action == MigrateAsWritten(root)
    ensures IsProgram(events[|events| - 1].before, root + ["django-demo", "django-demo", ".venv", "bin", "python"])
  {
    ServedAfterMigrating(fs0, fs, root, mode, AsWritten, events, o);
    AsWrittenLooksInNestedDir(root);
  }

  /** As corrected, Django is served after the migrations ran with the
      environment's own interpreter. */
  lemma IntendedServesAfterMigrating(fs0: FileMap, fs: FileMap, root: Path, mode: string, events: seq<Event>, o: Outcome)
    requires Launched(fs0, fs, root, Django, mode, Intended, events, o) && o.Exec?
    ensures |events| > 0 && events[|events| - 1].action == Migrate(root)
    ensures IsProgram(events[|events| - 1].before, root + ["django-demo", ".venv", "bin", "python"])
  {
    ServedAfterMigrating(fs0, fs, root, mode, Intended, events, o);
    IntendedMigrate(events[|events| - 1].before, root);
  }

  /** The files Django's steps inside the project are planned on: as the
      first of them found them, or the final files when none was issued. */
  ghost function TailFiles(pre: seq<Action>, events: seq<Event>, fs: FileMap): FileMap
  {
    if |events| > |pre| then events[|pre|].before else fs
  }

  /** A stop before the end of the plan ends `main` as `Launched` says. */
  lemma LaunchedOnStop(fs0: FileMap, fs: FileMap, root: Path, t: Target, mode: string, b: Build,
                       events: seq<Event>, fsP: FileMap, o: Outcome)
    requires var pre := Prelude(fs0, root, t, mode);
      && fsP == TailFiles(pre, events, fs)
      && (t != Django ==> Halted(events, pre, fs, o))
      && (t == Django ==> Halted(events, pre + Tail(fsP, root, b), fs, o) && |events| < |pre + Tail(fsP, root, b)|)
    requires Started(events)
    ensures Launched(fs0, fs, root, t, mode, b, events, o)
  {
    var pre := Prelude(fs0, root, t, mode);
    if t != Django {
      assert pre + [] == pre;
    }
  }

  /** Reaching the hand-over ends `main` as `Launched` says. */
  lemma LaunchedAtEnd(fs0: FileMap, fs: FileMap, root: Path, t: Target, mode: string, b: Build,
                      events: seq<Event>, fsP: FileMap, o: Outcome)
    requires var pre := Prelude(fs0, root, t, mode);
      var plan := pre + (if t == Django then Tail(fsP, root, b) else []);
      && fsP == TailFiles(pre, events, fs)
      && Issued(events, plan) && |events| == |plan|
      && AllSucceeded(events[..if t == Django then |plan| - 1 else |plan|])
    requires Started(events)
    requires o == if IsProgram(fs, root + ExecFile(t)) then Exec(Render(ExecFile(t)), ExecArgv(t))
                  else Raised(ProgramNotFound(Render(ExecFile(t))))
    ensures Launched(fs0, fs, root, t, mode, b, events, o)
  {
  }

  /** `os.execvpe` of the server: the process becomes it when its program is
      there, and raises otherwise. */
  method HandOver(m: Machine, root: Path, t: Target) returns (o: Outcome)
    ensures o == if IsProgram(m.fs, root + ExecFile(t)) then Exec(Render(ExecFile(t)), ExecArgv(t))
                 else Raised(ProgramNotFound(Render(ExecFile(t))))
  {
    var file := Render(ExecFile(t));
    ExecResolves(root, t);
    if !IsProgram(m.fs, root + Components(file)) {
      o := Raised(ProgramNotFound(file));
    } else {
      o := Exec(file, ExecArgv(t));
    }
  }

  /** `main` once the arguments are checked: the plan, then `os.execvpe` of
      the server, which raises when its program is not there. */
  method Launch(m: Machine, root: Path, t: Target, mode: string, b: Build) returns (o: Outcome)
    modifies m
    ensures |old(m.trace)| <= |m.trace| && m.trace[..|old(m.trace)|] == old(m.trace)
    ensures Launched(old(m.fs), m.fs, root, t, mode, b, m.trace[|old(m.trace)|..], o)
  {
    ghost var fs0, log0 := m.fs, m.trace;
    ghost var pre := Prelude(fs0, root, t, mode);
    var stop := RunPrelude(m, root, t, mode);
    if stop.Some? {
      ghost var events := m.trace[|log0|..];
      if t == Django {
        HaltedExtends(events, pre, Tail(m.fs, root, b), m.fs, stop.value);
      }
      LaunchedOnStop(fs0, m.fs, root, t, mode, b, events, m.fs, stop.value);
      return stop.value;
    }
    o := Serve(m, root, t, mode, b, fs0, log0);
  }

  /** After the install: Django's steps inside the project, then the
      hand-over. */
  method Serve(m: Machine, root: Path, t: Target, mode: string, b: Build, ghost fs0: FileMap, ghost log0: seq<Event>)
    returns (o: Outcome)
    requires Running(log0, Prelude(fs0, root, t, mode), m.trace)
    requires |m.trace| == |log0| + |Prelude(fs0, root, t, mode)| && Started(m.trace[|log0|..])
    modifies m
    ensures |log0| <= |m.trace| && m.trace[..|log0|] == log0
    ensures Launched(fs0, m.fs, root, t, mode, b, m.trace[|log0|..], o)
  {
    ghost var pre := Prelude(fs0, root, t, mode);
    ghost var fsP, log1 := m.fs, m.trace;
    if t == Django {
      var stop := RunTail(m, root, b, log0, pre);
      ghost var events := m.trace[|log0|..];
      assert |events| > |pre| ==> events[|pre|] == m.trace[|log1|];
      assert fsP == TailFiles(pre, events, m.fs);
      if stop.Some? {
        LaunchedOnStop(fs0, m.fs, root, t, mode, b, events, fsP, stop.value);
        return stop.value;
      }
    } else {
      ghost var events := m.trace[|log0|..];
      assert events[..|pre|] == events && pre + [] == pre;
      assert fsP == TailFiles(pre, events, m.fs);
    }
    o := HandOver(m, root, t);
    LaunchedAtEnd(fs0, m.fs, root, t, mode, b, m.trace[|log0|..], fsP, o);
  }

  /** `main`, from the repository root `root` with the command line `argv`
      (the script's own name first): too few arguments give status 2, an
      invalid mode or an unknown target status 3, with nothing run; a known
      target built in a valid mode ends as `Launched` says. */
  method Script(m: Machine, root: Path, argv: seq<string>) returns (o: Outcome)
    modifies m
    ensures |old(m.trace)| <= |m.trace| && m.trace[..|old(m.trace)|] == old(m.trace)
    ensures |argv| < 2 ==> o == Exit(2) && m.fs == old(m.fs) && m.trace == old(m.trace)
    ensures |argv| >= 2 && (!ValidMode(Mode(argv)) || TargetOf(argv[1]).None?) ==>
      o == Exit(3) && m.fs == old(m.fs) && m.trace == old(m.trace)
    ensures |argv| >= 2 && ValidMode(Mode(argv)) && TargetOf(argv[1]).Some? ==>
      Launched(old(m.fs), m.fs, root, TargetOf(argv[1]).value, Mode(argv), AsWritten, m.trace[|old(m.trace)|..], o)
  {
    if |argv| < 2 {
      return Exit(2);
    }
    var mode := Mode(argv);
    if !ValidMode(mode) {
      return Exit(3);
    }
    var target := TargetOf(argv[1]);
    if target.None? {
      return Exit(3);
    }
    o := Launch(m, root, target.value, mode, AsWritten);
  }
}
