# PySpringPad provisioning scripts, modelled in Dafny

PySpringPad keeps three demo web projects in one repository: `flask-demo`,
`fastapi-demo` and `django-demo`. A handful of Python scripts under
`scripts/` look after them:

- `new.py` scaffolds a project;
- `docker_scaffold.py` writes container files for all three;
- `venv_project.py` prepares a project's virtual environment;
- `run.py` installs a project's dependencies and hands the process over to
  gunicorn;
- `prepare_offline.py` fills a cache with the base image and every
  project's wheels;
- `use_offline.py` loads that cache and builds the images with the network
  off.

This project models the decision and sequencing layer of those scripts. It
proves what they promise about:

- exit statuses;
- which files they create, keep or overwrite;
- which commands they issue, in which order, and which are never issued;
- idempotence across reruns.

The host (module `Host`) has three parts:

- **Filesystem.** An abstract tree `map<Path, Node>`, where a path is its list
  of components and a node is a directory or a file with contents and an
  executable bit.
- **Commands.** A `Machine` class whose external commands (docker, pip, bash,
  the venv builder) are answered by oracle functions. The oracle gives a
  command's exit status, and the entries it creates or overwrites, from the
  files, the log so far and the command.
- **Log.** A record of every command issued, each with the files it saw.

Each script's `main` is a method on the machine. It ends in an explicit
`Outcome`:

- `Exit(code)`;
- `Abort(message)`: `sys.exit(str)`;
- `Raised(error)`: an uncaught exception;
- `Exec(file, argv)`: `os.execvpe`.

A script's working directory is modelled as an explicit root path in front of
every path it uses.

Modules:

- `Host`: paths, the filesystem primitives, commands, outcomes and the
  machine.
- `Writers`: the two write policies of the scaffold generators, and what
  sequences of them guarantee.
- `NewProject`: `scripts/new.py`.
- `DockerScaffold`: `scripts/docker_scaffold.py`.
- `Argv`: reading option values out of the command lines the scripts build.
- `VenvProject`: `scripts/venv_project.py`.
- `PrepareOffline`: `scripts/prepare_offline.py`.
- `UseOffline`: `scripts/use_offline.py`.
- `Launcher`: `scripts/run.py`.

## Model

| member | source | states |
|---|---|---|
| Host.ComponentsOfRender | scripts/run.py:46-49 | splitting `str(path)` at its separators gives the path back, for paths of plain components |
| Host.WithDirs | scripts/docker_scaffold.py:6 | `mkdir(parents=True, exist_ok=True)` adds exactly the missing prefixes, as directories, and keeps every existing entry |
| Host.Written | scripts/new.py:70-71 | a written file holds exactly the content; it is the only entry added or changed |
| Host.WithoutTree | scripts/use_offline.py:44 | `rmtree(ignore_errors=True)` removes the directory and everything under it and nothing else; on a file it does nothing |
| Host.Grafted | scripts/use_offline.py:23 | `copytree` puts every entry under the source at the same relative place under the destination, and only those |
| Host.Machine.Spawn | scripts/run.py:6-8 | a command is started exactly when its program can be found; it is then logged with its status and the files it saw, and its effect is applied; otherwise nothing changes |
| Host.Machine.MakeDirs | scripts/docker_scaffold.py:6 | succeeds exactly when no prefix is a file, and then leaves `WithDirs` |
| Host.Machine.WriteText | scripts/new.py:70-71 | succeeds exactly when the parent is a directory and the path is not one, and then leaves `Written` |
| Host.Machine.RemoveTree | scripts/use_offline.py:44 | leaves `WithoutTree` |
| Host.Machine.CopyTree | scripts/use_offline.py:23 | adds `Grafted` |
| Host.Machine.CopyFile | scripts/use_offline.py:25 | the destination gets the source file |
| Writers.HoldsIsNoop | scripts/docker_scaffold.py:5-12 | a write step with nothing left to do changes nothing |
| Writers.StepEstablishes | scripts/docker_scaffold.py:5-12 | after a write step succeeds, it has nothing left to do: the file exists, holding exactly the content if it is a regenerated file |
| Writers.StepKeeps | scripts/docker_scaffold.py:10-12 | a later overwrite of the same path with the same text keeps what an earlier one achieved |
| Writers.StepPreserves | scripts/docker_scaffold.py:5-8 | an existing entry is changed only by a step that always overwrites that very path |
| Writers.StepFrame | scripts/docker_scaffold.py:5-12 | a step changes nothing outside the paths it names |
| Writers.ApplyAppend | scripts/docker_scaffold.py:20-166 | running two sequences back to back is running their concatenation, stopping at the first step that raises |
| Writers.TouchedIff | scripts/docker_scaffold.py:20-166 | a path is touched by a run exactly when one of its steps touches it |
| Writers.ApplyFrame | scripts/new.py:86-105 | a run, finished or not, changes nothing outside the paths its steps name |
| Writers.ApplyPreserves | scripts/docker_scaffold.py:5-8 | a run, finished or not, keeps every existing entry that no step always overwrites |
| Writers.ApplyKeeps | scripts/docker_scaffold.py:5-12 | a run, finished or not, in which every overwrite of a path uses one text keeps what was already achieved |
| Writers.ApplyEstablishes | scripts/docker_scaffold.py:5-12 | after a run that did not raise, no step has anything left to do |
| Writers.ApplyNoop | scripts/docker_scaffold.py:5-12 | a run none of whose steps has anything to do changes nothing and does not raise |
| Writers.Idempotent | scripts/docker_scaffold.py:5-12 | running the same steps again after a run that did not raise changes nothing |
| Writers.Rerun | scripts/docker_scaffold.py:5-12 | running the same steps again ends exactly as the first run did, whether or not it raised: same files, same failing path |
| Writers.Creates | scripts/new.py:66-72 | a file that was missing, and that no other step names, holds exactly its template after a run that did not raise |
| NewProject.LayoutsDistinct | scripts/new.py:86-105 | each type's three file names are distinct |
| NewProject.TouchedByOps | scripts/new.py:86-105 | a type's run touches exactly the project directory (and its parents) and its three files |
| NewProject.TypeWritesItsFiles | scripts/new.py:86-105 | flask writes `app.py`, `requirements.txt` and `requirements-lock.txt` under `flask-demo`; fastapi writes `main.py` and both specs under `fastapi-demo`; django writes both specs and `README.txt` under `django-demo` |
| NewProject.OnlyProjectFilesChange | scripts/new.py:86-105 | outside the project directory, its parents and its files, nothing is added or changed |
| NewProject.UserEditsPreserved | scripts/new.py:66-72 | an existing entry, in particular an edited file, is never changed |
| NewProject.MissingFileWritten | scripts/new.py:66-72 | a missing file holds exactly its template after a run that did not raise |
| NewProject.RerunChangesNothing | scripts/new.py:66-72 | a second run for the same type ends exactly as the first did, whether or not it raised; after one that did not raise it changes nothing and does not raise |
| NewProject.WriteIfMissing | scripts/new.py:66-72 | an existing regular file is skipped; anything else is written exactly as the create-if-missing step says |
| NewProject.Materialize | scripts/new.py:87-91 | the files, and the outcome, are those of the fail-fast run of the type's steps: 0, or the exception of the first step that raised |
| NewProject.Scaffold | scripts/new.py:74-111 | without a type the status is 2, and for an unknown type it is 3, with nothing written; otherwise the type's run |
| Argv.OptionValueIff | scripts/run.py:52-63 | the value read for an option is exactly the word after its first occurrence that has one |
| Argv.OptionValueAt | scripts/run.py:52-63 | the value of an option is the word after its first occurrence |
| Argv.OnceAt | scripts/run.py:52-63 | a flag found at one position and nowhere else occurs at most once |
| Argv.OnceAbsent | scripts/run.py:52-63 | a flag that does not occur occurs at most once |
| Argv.OptionAt | scripts/run.py:52-63 | a flag found at one position only: its value is the next word, and it occurs once |
| Argv.OptionsAfter | scripts/run.py:52-63 | a program name in front that is not the flag changes neither the flag's value nor whether it occurs at most once |
| Argv.OptionValueAbsent | scripts/run.py:82-94 | an option that does not occur has no value |
| Argv.PortOfBind | scripts/run.py:59 | the port of `host:port` is `port`, whatever the host |
| DockerScaffold.EnvValueAt | scripts/docker_scaffold.py:25-33 | the first `KEY=` line of `.env.example` decides the key's value |
| DockerScaffold.FlaskPortsAgree | scripts/docker_scaffold.py:56-81 | the Flask Dockerfile exposes 5000, its command binds 5000, and the compose file maps `${FLASK_PORT:-5000}` to 5000, with `.env.example` giving 5000 |
| DockerScaffold.FastapiPortsAgree | scripts/docker_scaffold.py:109-134 | the same for FastAPI on 8000 |
| DockerScaffold.DjangoPortsAgree | scripts/docker_scaffold.py:142-166 | the same for Django on 8002, for the server started after the migration |
| DockerScaffold.ComposePathInjective | scripts/docker_scaffold.py:81 | different services have different compose files |
| DockerScaffold.FilesOpsKeep | scripts/docker_scaffold.py:5-8 | the project files are all create-if-missing |
| DockerScaffold.BlocksOverwrites | scripts/docker_scaffold.py:37-166 | the only steps that always overwrite are the compose files, one per service |
| DockerScaffold.RegeneratedHas | scripts/docker_scaffold.py:68-166 | each service's compose file is regenerated with that service's text |
| DockerScaffold.RegeneratedOnly | scripts/docker_scaffold.py:68-166 | and nothing else is regenerated |
| DockerScaffold.BlocksFromTemplates | scripts/docker_scaffold.py:20-166 | every overwrite in the write sequence uses the template of its path |
| DockerScaffold.ComposeFilesMatchTemplates | scripts/docker_scaffold.py:68-166 | after a run that did not raise, each compose file holds exactly its template, whatever was there before |
| DockerScaffold.RegeneratedFiles | scripts/docker_scaffold.py:68-166 | the regenerated files are exactly `docker/flask`, `docker/fastapi` and `docker/django`'s `docker-compose.yml` |
| DockerScaffold.ExistingFilesPreserved | scripts/docker_scaffold.py:20-166 | every existing entry other than the three compose files is kept exactly, whether or not the run raised |
| DockerScaffold.RerunChangesNothing | scripts/docker_scaffold.py:14-166 | a second run ends exactly as the first did, whether or not it raised; after one that did not raise it changes nothing and does not raise |
| DockerScaffold.MakeDir | scripts/docker_scaffold.py:20-22 | one `mkdir` as the first step of the rest of the run |
| DockerScaffold.WriteIfMissing | scripts/docker_scaffold.py:5-8 | make the parent, then write unless something is there: the first steps of the run |
| DockerScaffold.WriteAlways | scripts/docker_scaffold.py:10-12 | make the parent, then write: the first steps of the run |
| DockerScaffold.Base | scripts/docker_scaffold.py:20-34 | the base directories and `.env.example` |
| DockerScaffold.Flask | scripts/docker_scaffold.py:37-81 | the Flask block |
| DockerScaffold.Fastapi | scripts/docker_scaffold.py:84-134 | the FastAPI block |
| DockerScaffold.Django | scripts/docker_scaffold.py:137-166 | the Django block |
| DockerScaffold.Scaffold | scripts/docker_scaffold.py:14-168 | the files, and the outcome, are those of the fail-fast run of the whole write sequence |
| VenvProject.VenvPython | scripts/venv_project.py:8-13 | the interpreter is `Scripts/python.exe` under the environment on `nt`, `bin/python` elsewhere |
| VenvProject.VenvPythonInjective | scripts/venv_project.py:8-13 | two environments in different places never share an interpreter |
| VenvProject.EnsureVenv | scripts/venv_project.py:15-20 | a usable interpreter (present and executable) leaves everything as it is; otherwise the environment is created once, and a failed creation is reported; the interpreter path is returned in both cases |
| VenvProject.UpgradeAlwaysPlanned | scripts/venv_project.py:37-41 | the upgrade is the last step of every plan; creation is planned exactly when the environment is not usable |
| VenvProject.Script | scripts/venv_project.py:30-41 | a project directory that cannot be entered gives 1 and nothing else happens; otherwise creation when needed, fail-fast, then the upgrade, whose status is the script's |
| PrepareOffline.TarNameShape | scripts/prepare_offline.py:37 | the tar name is the reference with each `/` and `:` replaced by `-`, other characters kept, then `.tar`; it is 4 longer and has neither character |
| PrepareOffline.DefaultTarName | scripts/prepare_offline.py:7 | `python:3.12-slim` is saved as `python-3.12-slim.tar` |
| PrepareOffline.Downloads | scripts/prepare_offline.py:49-54 | one download per project, in project order |
| PrepareOffline.PlanOrder | scripts/prepare_offline.py:36-54 | pull, save, environment, upgrade, then the downloads, each reading its project's `requirements-lock.txt` |
| PrepareOffline.PlanAt | scripts/prepare_offline.py:36-54 | where each command sits in the plan |
| PrepareOffline.Command | scripts/prepare_offline.py:9-10 | a command as the next step of the plan: it goes on only when it ran with status 0; otherwise the script ends fail-fast |
| PrepareOffline.CacheDirsAre | scripts/prepare_offline.py:28-31 | the directories made before any command are `caches/images` and the three `caches/wheels/<p>` |
| PrepareOffline.MadeDirs | scripts/prepare_offline.py:28-31 | a `mkdir` that succeeded leaves the directory there and keeps every entry |
| PrepareOffline.MakeCacheDirs | scripts/prepare_offline.py:28-31 | nothing is removed; without an error, `caches/images` and every `caches/wheels/<p>` exist |
| PrepareOffline.Fetch | scripts/prepare_offline.py:34-46 | pull, save, create and upgrade, each seeing the cache directories, fail-fast |
| PrepareOffline.DownloadAll | scripts/prepare_offline.py:49-56 | the downloads in order, each into its own existing directory; 0 when all succeeded |
| PrepareOffline.Script | scripts/prepare_offline.py:18-62 | fail-fast over the plan with `BASE_IMAGE` or the default: 0 exactly when every command succeeded, otherwise the failing command's status; every command saw the cache directories; nothing present before outside the scratch environment `caches/.venv` is removed |
| UseOffline.CacheLayoutAgrees | scripts/use_offline.py:35 | the file loaded is the one the cache builder saves for its default base image, and the wheels come from where it downloads them |
| UseOffline.CopiedChild | scripts/use_offline.py:17-23 | a copied entry starts with a child of the source, a directory when deeper |
| UseOffline.CopyingKeepsSource | scripts/use_offline.py:20-25 | the cache side is untouched while copying |
| UseOffline.GraftedUnder | scripts/use_offline.py:23 | what `copytree` adds lies under the child's place in the destination |
| UseOffline.GraftedEntry | scripts/use_offline.py:23 | an entry of a child that was there from the start is grafted at its place under the destination |
| UseOffline.TreeCopies | scripts/use_offline.py:22-23 | after `copytree` of a child, each of its entries is at its place |
| UseOffline.GraftedFrom | scripts/use_offline.py:23 | an entry grafted from a child is a copy of an entry of that child |
| UseOffline.TreeNew | scripts/use_offline.py:22-23 | after `copytree` of a child, every new entry is a copy of an entry of it |
| UseOffline.TreeStep | scripts/use_offline.py:22-23 | a directory child keeps the copy loop's invariant |
| UseOffline.FileStep | scripts/use_offline.py:24-25 | a file child keeps the copy loop's invariant |
| UseOffline.CopyContents | scripts/use_offline.py:16-25 | an empty source fails with `No wheels found in <src>` and changes nothing; otherwise every entry of the source is copied to its place, nothing existing changes, and nothing else is added |
| UseOffline.AgreeTransfers | scripts/use_offline.py:47-51 | two trees that agree under the source see the same source and copy the same |
| UseOffline.Cleared | scripts/use_offline.py:44-45 | after clearing and recreating, the staging directory is empty and the cache side is untouched |
| UseOffline.ConfinedAfterCopy | scripts/use_offline.py:44-51 | a copy that only adds under the staging directory stays confined to it |
| UseOffline.StagedFromCopy | scripts/use_offline.py:44-51 | a cleared directory plus a copy holds exactly the copy |
| UseOffline.Stage | scripts/use_offline.py:42-53 | the staging directory is cleared and recreated before the source is checked; a missing source, an empty one and a `mkdir` that raises each end the script with their own message; after a missing or empty source the staging directory is there and empty; after a `mkdir` that raised it is gone, everything else as before; otherwise the directory holds exactly a copy of the source; nothing outside it changes |
| UseOffline.ConfinedKeepsSource | scripts/use_offline.py:41-53 | staging another project keeps this project's cache directory |
| UseOffline.ConfinedKeepsCopy | scripts/use_offline.py:41-53 | staging another project keeps this project's staged copy |
| UseOffline.StagedAgree | scripts/use_offline.py:41-53 | a copy judged against a tree that agrees on the cache side |
| UseOffline.Separate | scripts/use_offline.py:43-47 | cache and staging directories of the projects do not nest in one another |
| UseOffline.StageAll | scripts/use_offline.py:41-53 | without a failure every project's cache was ready and is staged exactly; otherwise the first failing project's failure, all earlier ones being ready and staged exactly, and the failing project's staging directory empty when its source was missing or empty |
| UseOffline.PlanOrder | scripts/use_offline.py:38-86 | load first; the three builds in project order, each with `--network=none`; then the three exports to `images/built/<name>-offline.tar` |
| UseOffline.Run | scripts/use_offline.py:8-14 | a non-zero status ends the script with exactly that status |
| UseOffline.Finish | scripts/use_offline.py:57-86 | the builds, then the export directory, then the exports, fail-fast |
| UseOffline.Export3 | scripts/use_offline.py:82-86 | the export directory exists before the first export; the exports, fail-fast |
| UseOffline.Script | scripts/use_offline.py:27-88 | a missing base tar ends with a message naming it and nothing else happens; otherwise: load; a staging failure right after it, with no build; every project's wheels staged exactly before the first build; the builds and exports fail-fast, with status 0 exactly when all succeeded |
| Launcher.TargetOfName | scripts/run.py:37-137 | exactly the three names select a target, each its own |
| Launcher.ChooseReqs | scripts/run.py:13-17 | `requirements-lock.txt` in the project exactly for `--stable`, `requirements.txt` otherwise |
| Launcher.ExecCommandLine | scripts/run.py:52-63 | argv[0] is the executable, inside the project's environment; working directory the project; two workers; bound to `127.0.0.1` on the target's port; only FastAPI has the uvicorn worker class; `--chdir`, `-w`, `-b` and `-k` each occur at most once, so any reading of a repeated option agrees |
| Launcher.FlaskOptions | scripts/run.py:52-63 | Flask's options, each given once |
| Launcher.FastapiOptions | scripts/run.py:82-94 | FastAPI's options, each given once |
| Launcher.FastapiDir | scripts/run.py:82-94 | FastAPI's working directory and worker count |
| Launcher.FastapiServer | scripts/run.py:82-94 | FastAPI's worker class and bind address |
| Launcher.DjangoOptions | scripts/run.py:123-133 | Django's options, each given once |
| Launcher.WordsDiffer | scripts/run.py:52-133 | the option words of equal length differ |
| Launcher.PortsDistinct | scripts/run.py:39 | no two targets listen on the same port |
| Launcher.ExecResolves | scripts/run.py:123-124 | the relative file handed over resolves, from the repository root, to the file in the project's environment |
| Launcher.ResolvesIn | scripts/run.py:117 | a rendered relative path with a separator is looked up under the child's directory |
| Launcher.AsWrittenLooksInNestedDir | scripts/run.py:107-120 | as written, `startproject` and `migrate` look for their programs under `django-demo/django-demo` |
| Launcher.AsWrittenCannotStart | scripts/run.py:117 | a tree with the environment in place where neither step can be started as written |
| Launcher.IntendedStartProject | scripts/run.py:117 | as corrected, `startproject` starts exactly when the environment's `django-admin` is there |
| Launcher.IntendedMigrate | scripts/run.py:120 | as corrected, `migrate` starts exactly when the environment's `python` is there, the same interpreter the install used |
| Launcher.PreludeShape | scripts/run.py:72-79 | only FastAPI and Django scaffold, and only when the project directory is missing; then the helper and the install of the chosen spec |
| Launcher.TailShape | scripts/run.py:115-120 | `startproject` exactly when `manage.py` is missing, first; the migrations always, last; for the programs as written and as corrected alike |
| Launcher.HaltedExtends | scripts/run.py:8 | a stop stays a stop when more steps are planned after it |
| Launcher.RunningExtends | scripts/run.py:112-117 | a run in progress stays one when more steps are planned |
| Launcher.Checked | scripts/run.py:6-8 | `check=True`: a status other than 0 raises `CalledProcessError` with it; a program not found raises |
| Launcher.RunPrelude | scripts/run.py:72-79 | the scaffold when needed, the helper and the install, fail-fast |
| Launcher.Unchecked | scripts/run.py:120 | `check=False`: the status is ignored; only a program not found stops the script |
| Launcher.RunTail | scripts/run.py:114-120 | `startproject` when `manage.py` is missing, checked; then the migrations, unchecked; each issued step could be started |
| Launcher.ServedAfterMigrating | scripts/run.py:119-133 | a Django run that reached the hand-over issued the migrations last, and they could be started |
| Launcher.AsWrittenServesOnlyFromNestedDir | scripts/run.py:107-133 | as written, Django is served only if an interpreter sat at `django-demo/django-demo/.venv/bin/python` when the migrations were issued |
| Launcher.IntendedServesAfterMigrating | scripts/run.py:119-133 | as corrected, Django is served after the migrations ran with the environment's own interpreter |
| Launcher.LaunchedOnStop | scripts/run.py:6-8 | a stop of a checked step before the end of the plan ends `main` as `Launched` says |
| Launcher.LaunchedAtEnd | scripts/run.py:123-133 | reaching the hand-over ends `main` as `Launched` says: the exec when the server's program is there, `FileNotFoundError` otherwise |
| Launcher.HandOver | scripts/run.py:123-133 | `os.execvpe`: the process becomes the server exactly when its program is there, and raises otherwise |
| Launcher.Serve | scripts/run.py:112-133 | after the install: Django's steps inside the project, then the hand-over, as `Launched` says |
| Launcher.Launch | scripts/run.py:37-133 | the plan's steps in order, each one issued startable; a checked failure raises, so nothing later runs and no exec happens; a failed migration does not stop it; the exec only when every checked step succeeded and the server's program is there; for the Django programs as written or as corrected |
| Launcher.Script | scripts/run.py:19-137 | fewer than two arguments give 2; an invalid mode gives 3 before anything else; an unknown target gives 3; none of these runs anything; a missing mode is `--stable`; otherwise `Launch` with the Django programs as written |

## Left out

- Console output is left out: `print`, messages on stderr, and `argparse`'s usage text and its own exit status. `VenvProject.Script` takes the project directory as given.
- `KeyboardInterrupt` and status 130 are left out: there are no signals in the model.
- `os.chdir(repo_root)` is left out. Each script is given its repository root as a path, and every path is written relative to it. `use_offline.py` never changes directory. Its `docker load` and `docker save` run where it was started, and that directory is the `here` parameter of `UseOffline.Script`.
- The `PATH` lookup of bare program names (`bash`, `docker`) and `sys.executable` lie outside the modelled tree. Such programs always start. A relative name with a separator is looked up under the command's directory.
- External commands do not model their output or their network traffic. Their effect on the files is an oracle that only creates or overwrites entries.
- `PrepareOffline.Script`: promises only that entries outside `caches/.venv` survive, because `pip install --upgrade pip` (prepare_offline.py:46) may remove the files of the pip it replaces there; the oracle itself never removes anything, so no command's removals are modelled.
- Negative statuses (a command killed by a signal) are ordinary statuses in the model.
- `os.execvpe` passes `os.environ.copy()` along. The environment is not part of the `Exec` outcome.
- `UseOffline.CopyContents`: of copy failures, only an empty source is modelled. Other I/O errors of `copytree` and `copy2` (permissions, a full disk) are left out. The destination is the freshly emptied staging directory, so the existing-destination errors of `copytree` cannot occur.
- `UseOffline.StageAll`: a `mkdir` failure of a staging directory is reported, but it is not characterised against the files the loop started on.
- Paths are rendered with `/` only. Windows separators in `str(path)` are left out, although `nt` is modelled for the interpreter's location.
- `run.py`'s exit status after a failed step diverges from the prose design. The design says the failing step's status is surfaced. In the code, `run` uses `check=True` and `main` catches nothing but `KeyboardInterrupt`. So the `CalledProcessError` escapes and the process ends with status 1. The model follows the code (`Raised(CalledProcessError(code))`).

## Findings

| source | as written | input that shows it | evidently intended | confidence | as-written member | corrected member |
|---|---|---|---|---|---|---|
| scripts/run.py:117 | The program of `startproject` is named `django-demo/.venv/bin/django-admin` relative to the repository root. But it runs with `cwd="django-demo"`, and on POSIX `subprocess` looks a relative program up under `cwd`. So it is searched for at `django-demo/django-demo/.venv/bin/django-admin`. | A tree where `django-demo/.venv/bin/django-admin` is executable, `django-demo/django-demo` does not exist and `manage.py` is missing. As written, the step cannot be started, and `run` raises `FileNotFoundError`. | The project environment's own `django-admin`, named relative to the project directory it runs in. Then the step starts exactly when that program is there. | not executed | Launcher.AsWrittenCannotStart | Launcher.IntendedStartProject |
| scripts/run.py:120 | The same holds for the migrations. Their program `django-demo/.venv/bin/python` is searched for at `django-demo/django-demo/.venv/bin/python`. So the best-effort migration never runs, and the script stops with `FileNotFoundError` before the exec. | The same tree, with `django-demo/.venv/bin/python` executable. | The environment's own `python`, named relative to the project directory. This is the interpreter the install step used. | not executed | Launcher.AsWrittenServesOnlyFromNestedDir | Launcher.IntendedServesAfterMigrating |
