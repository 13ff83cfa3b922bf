/** The environment manager `scripts/venv_project.py`: inside a project
    directory, create `.venv` only when its interpreter is not usable, then
    always upgrade the environment's own tooling and report that step's
    status. */
module VenvProject {
  import opened Host

  /** Where a virtual environment keeps its interpreter. */
  function VenvPython(osName: string, venv: Path): (py: Path)
    ensures |py| == |venv| + 2 && py[..|venv|] == venv
    ensures osName == "nt" ==> py[|venv|..] == ["Scripts", "python.exe"]
    ensures osName != "nt" ==> py[|venv|..] == ["bin", "python"]
  {
    if osName == "nt" then venv + ["Scripts", "python.exe"] else venv + ["bin", "python"]
  }

  /** Two environments in different places never share an interpreter. */
  lemma VenvPythonInjective(osName: string, a: Path, b: Path)
    requires VenvPython(osName, a) == VenvPython(osName, b)
    ensures a == b
  {
    assert a == VenvPython(osName, a)[..|a|];
    assert b == VenvPython(osName, b)[..|b|];
  }

  /** The interpreter is usable: it exists and `os.access(X_OK)` allows it. */
  predicate ValidVenv(fs: FileMap, osName: string, venv: Path)
  {
    IsExecutable(fs, VenvPython(osName, venv))
  }

  /** `ensure_venv`: a usable environment is left alone; otherwise
      `EnvBuilder(with_pip=True).create` runs, and raises if it fails. The
      interpreter path is the same in both cases. */
  method EnsureVenv(m: Machine, venv: Path) returns (py: Path, ok: bool)
    modifies m
    ensures py == VenvPython(m.osName, venv)
    ensures ValidVenv(old(m.fs), m.osName, venv) ==> ok && m.fs == old(m.fs) && m.trace == old(m.trace)
    ensures !ValidVenv(old(m.fs), m.osName, venv) ==>
      m.fs == old(m.fs) + m.effect(old(m.fs), old(m.trace), CreateVenv(venv)) &&
      m.trace == old(m.trace) + [Ran(CreateVenv(venv), m.status(old(m.fs), old(m.trace), CreateVenv(venv)), old(m.fs))] &&
      ok == (m.status(old(m.fs), old(m.trace), CreateVenv(venv)) == 0)
  {
    py := VenvPython(m.osName, venv);
    if IsExecutable(m.fs, py) {
      return py, true;
    }
    var started, code := m.Spawn(CreateVenv(venv));
    ok := code == 0;
  }

  /** The upgrade command, as issued from inside the project. */
  function Upgrade(osName: string, proj: Path): Action
  {
    Proc([Render(VenvPython(osName, [".venv"])), "-m", "pip", "install", "--upgrade", "pip", "wheel", "setuptools"], proj)
  }

  /** What `main` issues in a project directory: the creation of the
      environment only when it is not usable, and the upgrade in any case. */
  function Plan(fs: FileMap, osName: string, proj: Path): seq<Action>
  {
    (if ValidVenv(fs, osName, proj + [".venv"]) then [] else [CreateVenv(proj + [".venv"])]) + [Upgrade(osName, proj)]
  }

  /** The upgrade is the last step of every plan, created or not. */
  lemma UpgradeAlwaysPlanned(fs: FileMap, osName: string, proj: Path)
    ensures |Plan(fs, osName, proj)| >= 1 && Plan(fs, osName, proj)[|Plan(fs, osName, proj)| - 1] == Upgrade(osName, proj)
    ensures ValidVenv(fs, osName, proj + [".venv"]) <==> CreateVenv(proj + [".venv"]) !in Plan(fs, osName, proj)
  {
  }

  /** `main`: a project directory that cannot be entered gives status 1 and
      nothing else happens; otherwise the plan runs, a failed creation raises,
      and the upgrade's status is the script's status. */
  method Script(m: Machine, proj: Path) returns (o: Outcome)
    modifies m
    ensures |old(m.trace)| <= |m.trace| && m.trace[..|old(m.trace)|] == old(m.trace)
    ensures !IsDir(old(m.fs), proj) ==> o == Exit(1) && m.fs == old(m.fs) && m.trace == old(m.trace)
    ensures IsDir(old(m.fs), proj) ==>
      var plan, events := Plan(old(m.fs), m.osName, proj), m.trace[|old(m.trace)|..];
      && FailFast(events, plan)
      && (o.Exit? ==> |events| == |plan| && Completed(events[..|events| - 1], plan[..|plan| - 1])
                      && o.code == events[|events| - 1].code)
      && (o.Raised? && o.error.VenvCreationError? ==>
            |events| == 1 && plan[0] == CreateVenv(proj + [".venv"]) && events[0].code != 0)
      && (o.Raised? && o.error.ProgramNotFound? ==>
            |events| == |plan| - 1 && AllSucceeded(events) && o.error.program == Upgrade(m.osName, proj).argv[0])
      && (o.Exit? || (o.Raised? && (o.error.VenvCreationError? || o.error.ProgramNotFound?)))
  {
    if !IsDir(m.fs, proj) {
      return Exit(1);
    }
    ghost var fs0, log0 := m.fs, m.trace;
    ghost var plan := Plan(fs0, m.osName, proj);
    var py, ok := EnsureVenv(m, proj + [".venv"]);
    if !ok {
      return Raised(VenvCreationError(proj + [".venv"]));
    }
    ghost var log1 := m.trace;
    var upgrade := Upgrade(m.osName, proj);
    var started, code := m.Spawn(upgrade);
    if !started {
      return Raised(ProgramNotFound(upgrade.argv[0]));
    }
    assert m.trace == log1 + [Ran(upgrade, code, m.trace[|m.trace| - 1].before)];
    o := Exit(code);
  }
}
