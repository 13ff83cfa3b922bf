/** The offline cache builder `scripts/prepare_offline.py`: make the cache
    directories, pull and save the base image under a file name derived from
    its reference, create a scratch environment, and download every project's
    locked wheels; the first failing command ends the script with its status.
    Nothing outside the scratch environment is removed. */
module PrepareOffline {
  import opened Host
  import opened VenvProject

  const PROJECTS: seq<string> := ["flask-demo", "fastapi-demo", "django-demo"]
  const DEFAULT_BASE_IMAGE: string := "python:3.12-slim"

  // ---------------------------------------------------------------------------
  // The tar name

  /** `s.replace(a, b)` for one-character `a` and `b`. */
  function ReplaceChar(s: string, a: char, b: char): string
  {
    seq(|s|, i requires 0 <= i < |s| => if s[i] == a then b else s[i])
  }

  /** The file name the base image is saved under. */
  function TarName(base: string): string
  {
    ReplaceChar(ReplaceChar(base, '/', '-'), ':', '-') + ".tar"
  }

  /** Every `/` and `:` of the reference becomes `-`, every other character is
      kept, and `.tar` follows: the name has no separator and no colon. */
  lemma TarNameShape(base: string)
    ensures |TarName(base)| == |base| + 4
    ensures TarName(base)[|base|..] == ".tar"
    ensures forall i :: 0 <= i < |base| ==>
      TarName(base)[i] == if base[i] == '/' || base[i] == ':' then '-' else base[i]
    ensures '/' !in TarName(base) && ':' !in TarName(base)
  {
    var r := TarName(base);
    forall i | 0 <= i < |r| ensures r[i] != '/' && r[i] != ':' {
      if i >= |base| {
        assert r[i] == ".tar"[i - |base|];
      }
    }
  }

  /** The default reference is saved as `python-3.12-slim.tar`. */
  lemma DefaultTarName()
    ensures TarName(DEFAULT_BASE_IMAGE) == "python-3.12-slim.tar"
  {
  }

  // ---------------------------------------------------------------------------
  // The command plan

  function Cache(root: Path): Path { root + ["caches"] }

  function WheelsDir(root: Path, p: string): Path { Cache(root) + ["wheels", p] }

  /** The scratch environment's interpreter, relative to the repository root. */
  function ScratchPython(osName: string): string { Render(VenvPython(osName, ["caches", ".venv"])) }

  function Pull(root: Path, base: string): Action { Proc(["docker", "pull", base], root) }

  function Save(root: Path, base: string): Action
  {
    Proc(["docker", "save", "-o", Render(["caches", "images", TarName(base)]), base], root)
  }

  function MakeScratch(root: Path, interpreter: string): Action
  {
    Proc([interpreter, "-m", "venv", Render(["caches", ".venv"])], root)
  }

  function UpgradePip(root: Path, osName: string): Action
  {
    Proc([ScratchPython(osName), "-m", "pip", "install", "--upgrade", "pip"], root)
  }

  /** `pip download` of a project's locked requirements into its wheels directory. */
  function Download(root: Path, osName: string, p: string): Action
  {
    Proc([ScratchPython(osName), "-m", "pip", "download", "-d", Render(["caches", "wheels", p]),
          "-r", Abs(root + [p, "requirements-lock.txt"])], root)
  }

  function Downloads(root: Path, osName: string, ps: seq<string>): (r: seq<Action>)
    ensures |r| == |ps|
    ensures forall i :: 0 <= i < |ps| ==> r[i] == Download(root, osName, ps[i])
    decreases |ps|
  {
    if |ps| == 0 then [] else [Download(root, osName, ps[0])] + Downloads(root, osName, ps[1..])
  }

  /** Every command `main` issues, in order. */
  function Plan(root: Path, base: string, osName: string, interpreter: string): seq<Action>
  {
    [Pull(root, base), Save(root, base), MakeScratch(root, interpreter), UpgradePip(root, osName)]
    + Downloads(root, osName, PROJECTS)
  }

  /** Pull, save, environment, upgrade, then one download per project in
      order, each reading that project's `requirements-lock.txt`. */
  lemma PlanOrder(root: Path, base: string, osName: string, interpreter: string)
    ensures var plan := Plan(root, base, osName, interpreter);
      && |plan| == 7
      && plan[0].argv == ["docker", "pull", base]
      && plan[1].argv[..3] == ["docker", "save", "-o"] && plan[1].argv[4] == base
      && plan[2].argv[1..3] == ["-m", "venv"]
      && plan[3].argv[1..] == ["-m", "pip", "install", "--upgrade", "pip"]
      && forall i :: 0 <= i < |PROJECTS| ==>
           plan[4 + i].argv[2..4] == ["pip", "download"] &&
           plan[4 + i].argv[|plan[4 + i].argv| - 1] == Abs(root + [PROJECTS[i], "requirements-lock.txt"])
  {
  }

  // ---------------------------------------------------------------------------
  // The script

  /** The cache directories made before any command. */
  function CacheDirs(root: Path): set<Path>
  {
    {Cache(root) + ["images"]} + set p | p in PROJECTS :: WheelsDir(root, p)
  }

  /** The scratch environment, where the pip upgrade may remove the files of
      the pip it replaces. */
  function Scratch(root: Path): Path { Cache(root) + [".venv"] }

  /** Nothing outside the scratch environment is deleted. */
  predicate Grows(root: Path, before: FileMap, after: FileMap)
  {
    forall k :: k in before && !Under(Scratch(root), k) ==> k in after
  }

  /** The cache directories, listed. */
  lemma CacheDirsAre(root: Path)
    ensures CacheDirs(root) == {Cache(root) + ["images"], WheelsDir(root, PROJECTS[0]),
                                WheelsDir(root, PROJECTS[1]), WheelsDir(root, PROJECTS[2])}
  {
    forall k | k in CacheDirs(root)
      ensures k in {Cache(root) + ["images"], WheelsDir(root, PROJECTS[0]),
                    WheelsDir(root, PROJECTS[1]), WheelsDir(root, PROJECTS[2])}
    {
      if k != Cache(root) + ["images"] {
        var p :| p in PROJECTS && k == WheelsDir(root, p);
        assert p == PROJECTS[0] || p == PROJECTS[1] || p == PROJECTS[2];
      }
    }
  }

  /** A step that only adds entries keeps `Grows`. */
  lemma GrowsOn(root: Path, fs0: FileMap, a: FileMap, b: FileMap)
    requires Grows(root, fs0, a) && a.Keys <= b.Keys
    ensures Grows(root, fs0, b)
  {
  }

  /** Every command issued saw the cache directories, and nothing outside the
      scratch environment that was there before the script has gone. */
  predicate Snapshots(root: Path, fs0: FileMap, events: seq<Event>)
  {
    forall j :: 0 <= j < |events| ==> CacheDirs(root) <= events[j].before.Keys && Grows(root, fs0, events[j].before)
  }

  /** The state between two commands: the first ones of the plan have been
      issued, and all succeeded. */
  ghost predicate SoFar(root: Path, fs0: FileMap, log0: seq<Event>, plan: seq<Action>, fs: FileMap, trace: seq<Event>)
  {
    && |log0| <= |trace| && trace[..|log0|] == log0
    && |trace| - |log0| <= |plan|
    && Completed(trace[|log0|..], plan[..|trace| - |log0|])
    && CacheDirs(root) <= fs.Keys && Grows(root, fs0, fs)
    && Snapshots(root, fs0, trace[|log0|..])
  }

  /** How the script ends: fail-fast, with status 0 exactly when every
      command succeeded, the failing command's status otherwise, and an
      uncaught exception when a directory could not be made or a program could
      not be started. */
  predicate Ended(root: Path, fs0: FileMap, plan: seq<Action>, events: seq<Event>, fs: FileMap, o: Outcome)
  {
    && FailFast(events, plan)
    && Snapshots(root, fs0, events) && Grows(root, fs0, fs)
    && (o == Exit(0) <==> Completed(events, plan))
    && (o.Exit? && o.code != 0 ==> |events| > 0 && events[|events| - 1].code == o.code)
    && (o.Raised? ==> AllSucceeded(events) && |events| < |plan|)
    && (o.Raised? && o.error.ProgramNotFound? ==> o.error.program == Program(plan[|events|]))
    && (o.Exit? || (o.Raised? && (o.error.ProgramNotFound? || o.error.FileSystemError?)))
  }

  /** `run(cmd)` inside `main`: `check=True` turns a non-zero status into
      `CalledProcessError`, which the script turns into that exit status. */
  method Command(m: Machine, a: Action, ghost root: Path, ghost fs0: FileMap, ghost log0: seq<Event>,
                 ghost plan: seq<Action>) returns (stop: Option<Outcome>)
    requires SoFar(root, fs0, log0, plan, m.fs, m.trace)
    requires |m.trace| - |log0| < |plan| && plan[|m.trace| - |log0|] == a
    modifies m
    ensures |log0| <= |m.trace| && m.trace[..|log0|] == log0
    ensures stop.None? ==> SoFar(root, fs0, log0, plan, m.fs, m.trace) && |m.trace| == |old(m.trace)| + 1
    ensures stop.Some? ==> Ended(root, fs0, plan, m.trace[|log0|..], m.fs, stop.value)
  {
    ghost var before, fs1 := m.trace[|log0|..], m.fs;
    var started, code := m.Spawn(a);
    if !started {
      return Some(Raised(ProgramNotFound(Program(a))));
    }
    GrowsOn(root, fs0, fs1, m.fs);
    assert m.trace[..|log0|] == log0;
    assert m.trace[|log0|..] == before + [m.trace[|m.trace| - 1]];
    assert plan[..|m.trace| - |log0|] == plan[..|before|] + [a];
    if code != 0 {
      return Some(Exit(code));
    }
    stop := None;
  }

  /** Where each step of the plan sits. */
  lemma PlanAt(root: Path, base: string, osName: string, interpreter: string)
    ensures var plan := Plan(root, base, osName, interpreter);
      && |plan| == 4 + |PROJECTS|
      && plan[0] == Pull(root, base) && plan[1] == Save(root, base)
      && plan[2] == MakeScratch(root, interpreter) && plan[3] == UpgradePip(root, osName)
      && forall i :: 0 <= i < |PROJECTS| ==> plan[4 + i] == Download(root, osName, PROJECTS[i])
  {
  }

  /** The wheels directories of the first `i` projects are there. */
  predicate WheelsMade(root: Path, i: int, fs: FileMap)
    requires 0 <= i <= |PROJECTS|
  {
    forall j :: 0 <= j < i ==> WheelsDir(root, PROJECTS[j]) in fs
  }

  lemma WheelsMadeNext(root: Path, i: int, fs1: FileMap, fs2: FileMap)
    requires 0 <= i < |PROJECTS| && WheelsMade(root, i, fs1)
    requires fs1.Keys <= fs2.Keys && WheelsDir(root, PROJECTS[i]) in fs2
    ensures WheelsMade(root, i + 1, fs2)
  {
  }

  /** A `mkdir` that succeeded leaves the directory there and keeps every entry. */
  lemma MadeDirs(fs: FileMap, p: Path)
    requires |p| > 0
    ensures fs.Keys <= WithDirs(fs, p).Keys && p in WithDirs(fs, p)
  {
    assert p[..|p|] == p;
  }

  /** The directories made before any command: `caches/images`,
      `caches/wheels` and one wheels directory per project. */
  method MakeCacheDirs(m: Machine, root: Path) returns (failed: Option<Path>)
    modifies m`fs
    ensures old(m.fs).Keys <= m.fs.Keys
    ensures failed.None? ==> CacheDirs(root) <= m.fs.Keys
  {
    var images, wheels := Cache(root) + ["images"], Cache(root) + ["wheels"];
    ghost var fs1 := m.fs;
    var ok := m.MakeDirs(images);
    if !ok { return Some(images); }
    MadeDirs(fs1, images);
    fs1 := m.fs;
    ok := m.MakeDirs(wheels);
    if !ok { return Some(wheels); }
    MadeDirs(fs1, wheels);
    var i := 0;
    while i < |PROJECTS|
      invariant 0 <= i <= |PROJECTS|
      invariant old(m.fs).Keys <= m.fs.Keys && images in m.fs
      invariant WheelsMade(root, i, m.fs)
    {
      var dest := WheelsDir(root, PROJECTS[i]);
      fs1 := m.fs;
      ok := m.MakeDirs(dest);
      if !ok { return Some(dest); }
      MadeDirs(fs1, dest);
      WheelsMadeNext(root, i, fs1, m.fs);
      i := i + 1;
    }
    CacheDirsAre(root);
    return None;
  }

  /** The base image and the scratch environment: pull, save, create, upgrade. */
  method Fetch(m: Machine, root: Path, base: string, ghost fs0: FileMap, ghost log0: seq<Event>)
    returns (stop: Option<Outcome>)
    requires SoFar(root, fs0, log0, Plan(root, base, m.osName, m.interpreter), m.fs, m.trace) && m.trace == log0
    modifies m
    ensures |log0| <= |m.trace| && m.trace[..|log0|] == log0
    ensures stop.None? ==> SoFar(root, fs0, log0, Plan(root, base, m.osName, m.interpreter), m.fs, m.trace)
                           && |m.trace| == |log0| + 4
    ensures stop.Some? ==> Ended(root, fs0, Plan(root, base, m.osName, m.interpreter), m.trace[|log0|..], m.fs, stop.value)
  {
    ghost var plan := Plan(root, base, m.osName, m.interpreter);
    PlanAt(root, base, m.osName, m.interpreter);
    stop := Command(m, Pull(root, base), root, fs0, log0, plan);
    if stop.Some? { return; }
    stop := Command(m, Save(root, base), root, fs0, log0, plan);
    if stop.Some? { return; }
    stop := Command(m, MakeScratch(root, m.interpreter), root, fs0, log0, plan);
    if stop.Some? { return; }
    stop := Command(m, UpgradePip(root, m.osName), root, fs0, log0, plan);
  }

  /** One `pip download` per project, in order, each into its wheels directory. */
  method DownloadAll(m: Machine, root: Path, base: string, ghost fs0: FileMap, ghost log0: seq<Event>)
    returns (o: Outcome)
    requires SoFar(root, fs0, log0, Plan(root, base, m.osName, m.interpreter), m.fs, m.trace)
    requires |m.trace| == |log0| + 4
    modifies m
    ensures |log0| <= |m.trace| && m.trace[..|log0|] == log0
    ensures Ended(root, fs0, Plan(root, base, m.osName, m.interpreter), m.trace[|log0|..], m.fs, o)
  {
    ghost var plan := Plan(root, base, m.osName, m.interpreter);
    PlanAt(root, base, m.osName, m.interpreter);
    var i := 0;
    while i < |PROJECTS|
      invariant 0 <= i <= |PROJECTS|
      invariant SoFar(root, fs0, log0, plan, m.fs, m.trace) && |m.trace| - |log0| == 4 + i
    {
      var dest := WheelsDir(root, PROJECTS[i]);
      ghost var fs1 := m.fs;
      var ok := m.MakeDirs(dest);
      if !ok {
        return Raised(FileSystemError(dest));
      }
      GrowsOn(root, fs0, fs1, m.fs);
      var stop := Command(m, Download(root, m.osName, PROJECTS[i]), root, fs0, log0, plan);
      if stop.Some? {
        return stop.value;
      }
      i := i + 1;
    }
    assert plan[..|m.trace| - |log0|] == plan;
    o := Exit(0);
  }

  /** `main`: the cache directories, then the plan, fail-fast. */
  method Script(m: Machine, root: Path) returns (o: Outcome)
    modifies m
    ensures |old(m.trace)| <= |m.trace| && m.trace[..|old(m.trace)|] == old(m.trace)
    ensures var base := if "BASE_IMAGE" in m.environ then m.environ["BASE_IMAGE"] else DEFAULT_BASE_IMAGE;
      Ended(root, old(m.fs), Plan(root, base, m.osName, m.interpreter), m.trace[|old(m.trace)|..], m.fs, o)
  {
    ghost var fs0, log0 := m.fs, m.trace;
    var base := if "BASE_IMAGE" in m.environ then m.environ["BASE_IMAGE"] else DEFAULT_BASE_IMAGE;
    var failed := MakeCacheDirs(m, root);
    assert m.trace[|log0|..] == [];
    if failed.Some? {
      return Raised(FileSystemError(failed.value));
    }
    var stop := Fetch(m, root, base, fs0, log0);
    if stop.Some? {
      return stop.value;
    }
    o := DownloadAll(m, root, base, fs0, log0);
  }
}
