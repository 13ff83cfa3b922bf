/** The container scaffold `scripts/docker_scaffold.py`: the three projects'
    sources, dependency specs and Dockerfiles are created only when missing,
    the per-project compose files under `docker/` are regenerated on every
    run, and all of them agree on the port each service listens on. */
module DockerScaffold {
  import opened Host
  import opened Writers
  import opened Argv

  // ---------------------------------------------------------------------------
  // Templates

  /** A compose file with one `web` service built from `../../<project>`,
      publishing `${<portVar>:-<hostDefault>}:<containerPort>`. */
  datatype Compose = Compose(project: string, namesDockerfile: bool, portVar: string,
                             hostDefault: string, containerPort: string)

  function ComposeText(c: Compose): string
  {
    "services:\n  web:\n    build:\n      context: ../../" + c.project + "\n"
    + (if c.namesDockerfile then "      dockerfile: Dockerfile\n" else "")
    + "    env_file:\n      - ../../.env\n    ports:\n"
    + "      - \"${" + c.portVar + ":-" + c.hostDefault + "}:" + c.containerPort + "\"\n"
    + "    # volumes:\n    #   - ../../" + c.project + ":/app\n"
  }

  /** A container command: an exec-form argument list, or `sh -c "a && b"`. */
  datatype Command = Direct(args: seq<string>) | ShellAnd(first: seq<string>, second: seq<string>)

  function CommandArgs(c: Command): seq<string>
  {
    match c
    case Direct(args) => args
    case ShellAnd(first, second) => ["sh", "-c", Unwords(first) + " && " + Unwords(second)]
  }

  /** The words of the long-running server process. */
  function ServerArgs(c: Command): seq<string>
  {
    match c
    case Direct(args) => args
    case ShellAnd(_, second) => second
  }

  /** `["a","b"]`: each word in double quotes, separated by commas. */
  function JsonList(ws: seq<string>): string
  {
    "[" + QuotedWords(ws) + "]"
  }

  function QuotedWords(ws: seq<string>): string
    decreases |ws|
  {
    if |ws| == 0 then "" else if |ws| == 1 then "\"" + ws[0] + "\"" else "\"" + ws[0] + "\"," + QuotedWords(ws[1..])
  }

  /** A project Dockerfile on `python:3.12-slim`, exposing one port. */
  datatype Dockerfile = Dockerfile(expose: string, cmd: Command)

  function DockerfileText(d: Dockerfile): string
  {
    "FROM python:3.12-slim\nENV PYTHONDONTWRITEBYTECODE=1 PYTHONUNBUFFERED=1\nWORKDIR /app\n"
    + "COPY requirements.txt /app/requirements.txt\nRUN pip install --no-cache-dir -r /app/requirements.txt\n"
    + "COPY . /app/\nEXPOSE " + d.expose + "\nCMD " + JsonList(CommandArgs(d.cmd)) + "\n"
  }

  /** `KEY=value` lines. */
  function EnvText(vars: seq<(string, string)>): string
    decreases |vars|
  {
    if |vars| == 0 then "" else vars[0].0 + "=" + vars[0].1 + "\n" + EnvText(vars[1..])
  }

  /** The value the first `KEY=` line gives. */
  function EnvValue(vars: seq<(string, string)>, key: string): Option<string>
    decreases |vars|
  {
    if |vars| == 0 then None else if vars[0].0 == key then Some(vars[0].1) else EnvValue(vars[1..], key)
  }

  /** The first line for `key` decides its value. */
  lemma {:induction false} EnvValueAt(vars: seq<(string, string)>, key: string, i: int)
    requires 0 <= i < |vars| && vars[i].0 == key
    requires forall j :: 0 <= j < i ==> vars[j].0 != key
    ensures EnvValue(vars, key) == Some(vars[i].1)
    decreases i
  {
    if i > 0 {
      EnvValueAt(vars[1..], key, i - 1);
    }
  }

  const ENV_EXAMPLE: seq<(string, string)> :=
    [("LANG", "en_US.UTF-8"), ("LC_ALL", "en_US.UTF-8"), ("TZ", "America/New_York"), ("APP_LOCALE", "en-US"),
     ("FLASK_PORT", "5000"), ("FASTAPI_PORT", "8000"), ("DJANGO_PORT", "8002")]

  const FLASK_REQ: string := "flask>=3\ngunicorn>=21\n"
  const FLASK_APP: string :=
    "from flask import Flask, jsonify, request\napp = Flask(__name__)\n\n@app.get(\"/\")\ndef index():\n"
    + "    return {\"message\": \"Hello from Flask!\"}\n\n@app.get(\"/echo/<name>\")\ndef echo(name):\n"
    + "    return jsonify(hello=name, q=request.args.get(\"q\"))\n"
  const FLASK_DOCKERFILE: Dockerfile :=
    Dockerfile("5000", Direct(["gunicorn", "-w", "2", "-b", "0.0.0.0:5000", "app:app"]))
  const FLASK_COMPOSE: Compose := Compose("flask-demo", true, "FLASK_PORT", "5000", "5000")

  const FASTAPI_REQ: string := "fastapi>=0.115\nuvicorn[standard]>=0.30\ngunicorn>=21\npydantic>=2.8\n"
  const FASTAPI_APP: string :=
    "from fastapi import FastAPI\nfrom pydantic import BaseModel\napp = FastAPI()\n\n@app.get(\"/\")\n"
    + "def read_root():\n    return {\"message\": \"Hello from FastAPI!\"}\n\nclass Item(BaseModel):\n"
    + "    name: str\n    qty: int\n\n@app.post(\"/items\")\ndef create_item(item: Item):\n"
    + "    return {\"ok\": True, \"item\": item}\n"
  const FASTAPI_DOCKERFILE: Dockerfile :=
    Dockerfile("8000", Direct(["gunicorn", "-w", "2", "-k", "uvicorn.workers.UvicornWorker",
                               "-b", "0.0.0.0:8000", "main:app"]))
  const FASTAPI_COMPOSE: Compose := Compose("fastapi-demo", true, "FASTAPI_PORT", "8000", "8000")

  const DJANGO_REQ: string := "django>=5.0\ngunicorn>=21\n"
  const DJANGO_DOCKERFILE: Dockerfile :=
    Dockerfile("8002", ShellAnd(["python", "manage.py", "migrate"],
                                ["gunicorn", "-w", "2", "-b", "0.0.0.0:8002", "config.wsgi:application"]))
  const DJANGO_COMPOSE: Compose := Compose("django-demo", false, "DJANGO_PORT", "8002", "8002")

  /** A service is consistent when the compose file maps the port the image
      exposes, the server binds that port, and `.env.example` sets the
      variable the compose file reads to the default it falls back on. */
  predicate PortsAgree(c: Compose, d: Dockerfile, env: seq<(string, string)>)
  {
    && c.containerPort == d.expose
    && OptionValue(ServerArgs(d.cmd), "-b").Some?
    && AfterLastColon(OptionValue(ServerArgs(d.cmd), "-b").value) == d.expose
    && EnvValue(env, c.portVar) == Some(c.hostDefault)
  }

  /** Flask on 5000. */
  lemma FlaskPortsAgree()
    ensures PortsAgree(FLASK_COMPOSE, FLASK_DOCKERFILE, ENV_EXAMPLE) && FLASK_DOCKERFILE.expose == "5000"
  {
    var args := ServerArgs(FLASK_DOCKERFILE.cmd);
    assert args[..3] == ["gunicorn", "-w", "2"];
    OptionValueAt(args, "-b", 3);
    PortOfBind("0.0.0.0", "5000");
    assert "0.0.0.0:5000" == "0.0.0.0" + ":" + "5000";
    EnvValueAt(ENV_EXAMPLE, "FLASK_PORT", 4);
  }

  /** FastAPI on 8000. */
  lemma FastapiPortsAgree()
    ensures PortsAgree(FASTAPI_COMPOSE, FASTAPI_DOCKERFILE, ENV_EXAMPLE) && FASTAPI_DOCKERFILE.expose == "8000"
  {
    var args := ServerArgs(FASTAPI_DOCKERFILE.cmd);
    assert args[..5] == ["gunicorn", "-w", "2", "-k", "uvicorn.workers.UvicornWorker"];
    OptionValueAt(args, "-b", 5);
    PortOfBind("0.0.0.0", "8000");
    assert "0.0.0.0:8000" == "0.0.0.0" + ":" + "8000";
    EnvValueAt(ENV_EXAMPLE, "FASTAPI_PORT", 5);
  }

  /** Django on 8002, for the server started after the migration. */
  lemma DjangoPortsAgree()
    ensures PortsAgree(DJANGO_COMPOSE, DJANGO_DOCKERFILE, ENV_EXAMPLE) && DJANGO_DOCKERFILE.expose == "8002"
  {
    var args := ServerArgs(DJANGO_DOCKERFILE.cmd);
    assert args[..3] == ["gunicorn", "-w", "2"];
    OptionValueAt(args, "-b", 3);
    PortOfBind("0.0.0.0", "8002");
    assert "0.0.0.0:8002" == "0.0.0.0" + ":" + "8002";
    EnvValueAt(ENV_EXAMPLE, "DJANGO_PORT", 6);
  }

  // ---------------------------------------------------------------------------
  // The write sequence

  function Parent(p: Path): Path
    requires |p| > 0
  {
    p[..|p| - 1]
  }

  /** `write_if_missing`: make the parent, then write unless something is there. */
  function IfMissing(p: Path, content: string): seq<Op>
    requires |p| > 0
  {
    [MakeDirs(Parent(p)), Put(p, content, SkipIfExists)]
  }

  /** `write_always`: make the parent, then write. */
  function Always(p: Path, content: string): seq<Op>
    requires |p| > 0
  {
    [MakeDirs(Parent(p)), Put(p, content, Overwrite)]
  }

  function ComposePath(root: Path, service: string): Path
  {
    root + ["docker", service, "docker-compose.yml"]
  }

  function BaseOps(root: Path, env: string): seq<Op>
  {
    [MakeDirs(root + ["docker", "flask"]), MakeDirs(root + ["docker", "fastapi"]),
     MakeDirs(root + ["docker", "django"])]
    + IfMissing(root + [".env.example"], env)
  }

  /** One project's block: the project directory and the files created there
      if missing, then the compose file regenerated under `docker/<service>`. */
  datatype Block = Block(project: string, files: seq<(string, string)>, service: string, compose: string)

  /** The create-if-missing files of a project directory, in order. */
  function FilesOps(d: Path, files: seq<(string, string)>): seq<Op>
    decreases |files|
  {
    if |files| == 0 then [] else IfMissing(d + [files[0].0], files[0].1) + FilesOps(d, files[1..])
  }

  function Regeneration(root: Path, b: Block): Op
  {
    Put(ComposePath(root, b.service), b.compose, Overwrite)
  }

  function SectionOps(root: Path, b: Block): seq<Op>
  {
    [MakeDirs(root + [b.project])]
    + (FilesOps(root + [b.project], b.files) + Always(ComposePath(root, b.service), b.compose))
  }

  function BlocksOps(root: Path, blocks: seq<Block>): seq<Op>
    decreases |blocks|
  {
    if |blocks| == 0 then [] else SectionOps(root, blocks[0]) + BlocksOps(root, blocks[1..])
  }

  const FLASK: Block :=
    Block("flask-demo", [("requirements.txt", FLASK_REQ), ("app.py", FLASK_APP),
                         ("Dockerfile", DockerfileText(FLASK_DOCKERFILE))],
          "flask", ComposeText(FLASK_COMPOSE))
  const FASTAPI: Block :=
    Block("fastapi-demo", [("requirements.txt", FASTAPI_REQ), ("main.py", FASTAPI_APP),
                           ("Dockerfile", DockerfileText(FASTAPI_DOCKERFILE))],
          "fastapi", ComposeText(FASTAPI_COMPOSE))
  const DJANGO: Block :=
    Block("django-demo", [("requirements.txt", DJANGO_REQ), ("Dockerfile", DockerfileText(DJANGO_DOCKERFILE))],
          "django", ComposeText(DJANGO_COMPOSE))

  const BLOCKS: seq<Block> := [FLASK, FASTAPI, DJANGO]

  /** Everything `main` writes, in order. */
  function ScaffoldOps(root: Path): seq<Op>
  {
    BaseOps(root, EnvText(ENV_EXAMPLE)) + BlocksOps(root, BLOCKS)
  }

  /** The regenerated files and the text each is regenerated with. */
  function Regenerated(root: Path, blocks: seq<Block>): (r: map<Path, string>)
    decreases |blocks|
  {
    if |blocks| == 0 then map[]
    else Regenerated(root, blocks[1..])[ComposePath(root, blocks[0].service) := blocks[0].compose]
  }

  /** No two blocks regenerate the same compose file. */
  predicate DistinctServices(blocks: seq<Block>)
  {
    forall i, j :: 0 <= i < j < |blocks| ==> blocks[i].service != blocks[j].service
  }

  lemma ComposePathInjective(root: Path, a: string, b: string)
    requires ComposePath(root, a) == ComposePath(root, b)
    ensures a == b
  {
    assert ComposePath(root, a)[|root| + 1] == a;
  }

  /** Create-if-missing files are never overwritten. */
  lemma {:induction false} FilesOpsKeep(d: Path, files: seq<(string, string)>)
    ensures forall op :: op in FilesOps(d, files) ==> !(op.Put? && op.policy == Overwrite)
    decreases |files|
  {
    if |files| > 0 {
      FilesOpsKeep(d, files[1..]);
    }
  }

  /** The steps of the blocks that overwrite are exactly their compose files. */
  lemma {:induction false} BlocksOverwrites(root: Path, blocks: seq<Block>)
    ensures forall op :: op in BlocksOps(root, blocks) && op.Put? && op.policy == Overwrite <==>
      exists i :: 0 <= i < |blocks| && op == Regeneration(root, blocks[i])
    decreases |blocks|
  {
    if |blocks| > 0 {
      var b, rest := blocks[0], blocks[1..];
      FilesOpsKeep(root + [b.project], b.files);
      BlocksOverwrites(root, rest);
      assert Always(ComposePath(root, b.service), b.compose)[1] == Regeneration(root, b);
      forall op | exists i :: 0 <= i < |blocks| && op == Regeneration(root, blocks[i])
        ensures op in BlocksOps(root, blocks)
      {
        var i :| 0 <= i < |blocks| && op == Regeneration(root, blocks[i]);
        if i > 0 {
          assert op == Regeneration(root, rest[i - 1]);
        }
      }
      forall op | op in BlocksOps(root, rest) && op.Put? && op.policy == Overwrite
        ensures exists i :: 0 <= i < |blocks| && op == Regeneration(root, blocks[i])
      {
        var i :| 0 <= i < |rest| && op == Regeneration(root, rest[i]);
        assert op == Regeneration(root, blocks[i + 1]);
      }
    }
  }

  lemma DistinctRest(blocks: seq<Block>)
    requires |blocks| > 0 && DistinctServices(blocks)
    ensures DistinctServices(blocks[1..])
  {
    var rest := blocks[1..];
    forall i, j | 0 <= i < j < |rest| ensures rest[i].service != rest[j].service {
      assert rest[i] == blocks[i + 1] && rest[j] == blocks[j + 1];
    }
  }

  /** `Regenerated` maps each block's compose file to that block's text. */
  lemma {:induction false} RegeneratedHas(root: Path, blocks: seq<Block>)
    requires DistinctServices(blocks)
    ensures forall i :: 0 <= i < |blocks| ==>
      ComposePath(root, blocks[i].service) in Regenerated(root, blocks) &&
      Regenerated(root, blocks)[ComposePath(root, blocks[i].service)] == blocks[i].compose
    decreases |blocks|
  {
    if |blocks| > 0 {
      var rest := blocks[1..];
      DistinctRest(blocks);
      RegeneratedHas(root, rest);
      forall i | 0 < i < |blocks|
        ensures ComposePath(root, blocks[i].service) in Regenerated(root, blocks) &&
          Regenerated(root, blocks)[ComposePath(root, blocks[i].service)] == blocks[i].compose
      {
        assert blocks[i] == rest[i - 1];
        if ComposePath(root, blocks[i].service) == ComposePath(root, blocks[0].service) {
          ComposePathInjective(root, blocks[i].service, blocks[0].service);
        }
      }
    }
  }

  /** ... and to nothing else. */
  lemma {:induction false} RegeneratedOnly(root: Path, blocks: seq<Block>)
    ensures forall k :: k in Regenerated(root, blocks) ==>
      exists i :: 0 <= i < |blocks| && k == ComposePath(root, blocks[i].service)
    decreases |blocks|
  {
    if |blocks| > 0 {
      var rest := blocks[1..];
      RegeneratedOnly(root, rest);
      forall k | k in Regenerated(root, rest)
        ensures exists i :: 0 <= i < |blocks| && k == ComposePath(root, blocks[i].service)
      {
        var i :| 0 <= i < |rest| && k == ComposePath(root, rest[i].service);
        assert rest[i] == blocks[i + 1];
      }
    }
  }

  /** The write sequence of any distinct blocks overwrites only their compose
      files, each with its own text. */
  lemma BlocksFromTemplates(root: Path, env: string, blocks: seq<Block>)
    requires DistinctServices(blocks)
    ensures OverwritesFrom(BaseOps(root, env) + BlocksOps(root, blocks), Regenerated(root, blocks))
  {
    var ops := BaseOps(root, env) + BlocksOps(root, blocks);
    BlocksOverwrites(root, blocks);
    RegeneratedHas(root, blocks);
    forall op | op in ops && op.Put? && op.policy == Overwrite
      ensures op.path in Regenerated(root, blocks) && Regenerated(root, blocks)[op.path] == op.content
    {
      assert op in BlocksOps(root, blocks);
    }
    OverwritesFromMembers(ops, Regenerated(root, blocks));
  }

  lemma BlocksDistinct()
    ensures DistinctServices(BLOCKS)
  {
  }

  // ---------------------------------------------------------------------------
  // What the scaffold guarantees

  /** After a run that did not raise, each compose file holds exactly its
      template, whatever was there before. */
  lemma BlocksRegenerate(fs: FileMap, root: Path, env: string, blocks: seq<Block>)
    requires DistinctServices(blocks)
    requires Apply(fs, BaseOps(root, env) + BlocksOps(root, blocks)).failed.None?
    ensures forall k :: k in Regenerated(root, blocks) ==>
      IsFile(Apply(fs, BaseOps(root, env) + BlocksOps(root, blocks)).fs, k) &&
      Apply(fs, BaseOps(root, env) + BlocksOps(root, blocks)).fs[k].content == Regenerated(root, blocks)[k]
  {
    var ops, t := BaseOps(root, env) + BlocksOps(root, blocks), Regenerated(root, blocks);
    BlocksFromTemplates(root, env, blocks);
    BlocksOverwrites(root, blocks);
    RegeneratedOnly(root, blocks);
    forall k | k in t ensures IsFile(Apply(fs, ops).fs, k) && Apply(fs, ops).fs[k].content == t[k] {
      var i :| 0 <= i < |blocks| && k == ComposePath(root, blocks[i].service);
      assert Regeneration(root, blocks[i]) in BlocksOps(root, blocks);
      assert Regeneration(root, blocks[i]) in ops;
      EstablishesMember(fs, ops, t, Regeneration(root, blocks[i]));
    }
  }

  lemma ComposeFilesMatchTemplates(fs: FileMap, root: Path)
    requires Apply(fs, ScaffoldOps(root)).failed.None?
    ensures forall k :: k in Regenerated(root, BLOCKS) ==>
      IsFile(Apply(fs, ScaffoldOps(root)).fs, k) && Apply(fs, ScaffoldOps(root)).fs[k].content == Regenerated(root, BLOCKS)[k]
  {
    BlocksDistinct();
    BlocksRegenerate(fs, root, EnvText(ENV_EXAMPLE), BLOCKS);
  }

  /** These are `docker/<service>/docker-compose.yml` for flask, fastapi and
      django, with the texts of the three compose templates. */
  lemma RegeneratedFiles(root: Path)
    ensures forall k :: k in Regenerated(root, BLOCKS) <==>
      k == ComposePath(root, "flask") || k == ComposePath(root, "fastapi") || k == ComposePath(root, "django")
    ensures ComposePath(root, "flask") in Regenerated(root, BLOCKS)
      && Regenerated(root, BLOCKS)[ComposePath(root, "flask")] == ComposeText(FLASK_COMPOSE)
    ensures ComposePath(root, "fastapi") in Regenerated(root, BLOCKS)
      && Regenerated(root, BLOCKS)[ComposePath(root, "fastapi")] == ComposeText(FASTAPI_COMPOSE)
    ensures ComposePath(root, "django") in Regenerated(root, BLOCKS)
      && Regenerated(root, BLOCKS)[ComposePath(root, "django")] == ComposeText(DJANGO_COMPOSE)
  {
    BlocksDistinct();
    RegeneratedHas(root, BLOCKS);
    RegeneratedOnly(root, BLOCKS);
    var b0, b1, b2 := BLOCKS[0], BLOCKS[1], BLOCKS[2];
    assert b0.service == "flask" && b0.compose == ComposeText(FLASK_COMPOSE);
    assert b1.service == "fastapi" && b1.compose == ComposeText(FASTAPI_COMPOSE);
    assert b2.service == "django" && b2.compose == ComposeText(DJANGO_COMPOSE);
    forall k | k in Regenerated(root, BLOCKS)
      ensures k == ComposePath(root, "flask") || k == ComposePath(root, "fastapi") || k == ComposePath(root, "django")
    {
      var i :| 0 <= i < |BLOCKS| && k == ComposePath(root, BLOCKS[i].service);
      if i == 0 {
        assert BLOCKS[0].service == "flask";
      } else if i == 1 {
        assert BLOCKS[1].service == "fastapi";
      } else {
        assert BLOCKS[2].service == "django";
      }
    }
  }

  /** Every existing entry other than the three compose files is left exactly
      as it was: sources, requirement files, Dockerfiles and `.env.example`
      are never overwritten. */
  lemma ExistingFilesPreserved(fs: FileMap, root: Path, k: Path)
    requires k in fs && k !in Regenerated(root, BLOCKS)
    ensures k in Apply(fs, ScaffoldOps(root)).fs && Apply(fs, ScaffoldOps(root)).fs[k] == fs[k]
  {
    BlocksDistinct();
    BlocksFromTemplates(root, EnvText(ENV_EXAMPLE), BLOCKS);
    var ops := ScaffoldOps(root);
    forall i | 0 <= i < |ops| ensures !Rewrites(ops[i], k) {}
    ApplyPreserves(fs, ops, k);
  }

  /** A second run ends exactly as the first did: after a run that did not
      raise it changes nothing, and after one that raised it raises at the
      same path, on the same files. */
  lemma RerunChangesNothing(fs: FileMap, root: Path)
    ensures Apply(Apply(fs, ScaffoldOps(root)).fs, ScaffoldOps(root)) == Apply(fs, ScaffoldOps(root))
    ensures Apply(fs, ScaffoldOps(root)).failed.None? ==>
      Apply(Apply(fs, ScaffoldOps(root)).fs, ScaffoldOps(root)) == Applied(Apply(fs, ScaffoldOps(root)).fs, None)
  {
    BlocksDistinct();
    BlocksFromTemplates(root, EnvText(ENV_EXAMPLE), BLOCKS);
    Rerun(fs, ScaffoldOps(root), Regenerated(root, BLOCKS));
  }

  lemma ScaffoldOpsUnfold(root: Path)
    ensures ScaffoldOps(root) == BaseOps(root, EnvText(ENV_EXAMPLE))
      + (SectionOps(root, FLASK) + (SectionOps(root, FASTAPI) + (SectionOps(root, DJANGO) + [])))
  {
    var t1 := BLOCKS[1..];
    var t2 := t1[1..];
    assert BlocksOps(root, t2[1..]) == [];
    assert BlocksOps(root, t2) == SectionOps(root, DJANGO) + [];
    assert BlocksOps(root, t1) == SectionOps(root, FASTAPI) + (SectionOps(root, DJANGO) + []);
  }

  lemma FilesOpsUnfold3(d: Path, files: seq<(string, string)>)
    requires |files| == 3
    ensures FilesOps(d, files) ==
      IfMissing(d + [files[0].0], files[0].1) + (IfMissing(d + [files[1].0], files[1].1)
      + IfMissing(d + [files[2].0], files[2].1))
  {
    var t1 := files[1..];
    var t2 := t1[1..];
    assert FilesOps(d, t2[1..]) == [];
    assert FilesOps(d, t2) == IfMissing(d + [files[2].0], files[2].1);
    assert FilesOps(d, t1) == IfMissing(d + [files[1].0], files[1].1) + IfMissing(d + [files[2].0], files[2].1);
  }

  lemma FilesOpsUnfold2(d: Path, files: seq<(string, string)>)
    requires |files| == 2
    ensures FilesOps(d, files) == IfMissing(d + [files[0].0], files[0].1) + IfMissing(d + [files[1].0], files[1].1)
  {
    var t1 := files[1..];
    assert FilesOps(d, t1[1..]) == [];
    assert FilesOps(d, t1) == IfMissing(d + [files[1].0], files[1].1);
  }

  // ---------------------------------------------------------------------------
  // The script. Each method runs its steps in front of the ghost `rest`, the
  // steps still to come, so consecutive calls compose without rewriting.

  /** `Path.mkdir(parents=True, exist_ok=True)` */
  method MakeDir(m: Machine, p: Path, ghost rest: seq<Op>) returns (failed: Option<Path>)
    modifies m`fs
    ensures failed.Some? ==> Apply(old(m.fs), [MakeDirs(p)] + rest) == Applied(m.fs, failed)
    ensures failed.None? ==> Apply(old(m.fs), [MakeDirs(p)] + rest) == Apply(m.fs, rest)
  {
    ApplyCons(m.fs, MakeDirs(p), rest);
    var ok := m.MakeDirs(p);
    failed := if ok then None else Some(p);
  }

  /** Writes `content` at `p` after making its parent, unless a write-if-missing
      finds something already there. */
  method PutFile(m: Machine, p: Path, content: string, policy: Policy, ghost rest: seq<Op>)
    returns (failed: Option<Path>)
    requires |p| > 0 && policy != SkipIfFile
    modifies m`fs
    ensures var ops := [MakeDirs(Parent(p)), Put(p, content, policy)];
      && (failed.Some? ==> Apply(old(m.fs), ops + rest) == Applied(m.fs, failed))
      && (failed.None? ==> Apply(old(m.fs), ops + rest) == Apply(m.fs, rest))
  {
    ghost var fs0 := m.fs;
    ghost var tail := [Put(p, content, policy)] + rest;
    assert [MakeDirs(Parent(p)), Put(p, content, policy)] + rest == [MakeDirs(Parent(p))] + tail;
    failed := MakeDir(m, Parent(p), tail);
    if failed.Some? {
      return;
    }
    ApplyCons(m.fs, Put(p, content, policy), rest);
    if policy == SkipIfExists && p in m.fs {
      return None;
    }
    var ok := m.WriteText(p, content);
    failed := if ok then None else Some(p);
  }

  method WriteIfMissing(m: Machine, p: Path, content: string, ghost rest: seq<Op>) returns (failed: Option<Path>)
    requires |p| > 0
    modifies m`fs
    ensures failed.Some? ==> Apply(old(m.fs), IfMissing(p, content) + rest) == Applied(m.fs, failed)
    ensures failed.None? ==> Apply(old(m.fs), IfMissing(p, content) + rest) == Apply(m.fs, rest)
  {
    failed := PutFile(m, p, content, SkipIfExists, rest);
  }

  method WriteAlways(m: Machine, p: Path, content: string, ghost rest: seq<Op>) returns (failed: Option<Path>)
    requires |p| > 0
    modifies m`fs
    ensures failed.Some? ==> Apply(old(m.fs), Always(p, content) + rest) == Applied(m.fs, failed)
    ensures failed.None? ==> Apply(old(m.fs), Always(p, content) + rest) == Apply(m.fs, rest)
  {
    failed := PutFile(m, p, content, Overwrite, rest);
  }

  /** The base directories and `.env.example`. */
  method Base(m: Machine, root: Path, ghost rest: seq<Op>) returns (failed: Option<Path>)
    modifies m`fs
    ensures failed.Some? ==> Apply(old(m.fs), BaseOps(root, EnvText(ENV_EXAMPLE)) + rest) == Applied(m.fs, failed)
    ensures failed.None? ==> Apply(old(m.fs), BaseOps(root, EnvText(ENV_EXAMPLE)) + rest) == Apply(m.fs, rest)
  {
    var env := IfMissing(root + [".env.example"], EnvText(ENV_EXAMPLE));
    assert BaseOps(root, EnvText(ENV_EXAMPLE)) + rest ==
      [MakeDirs(root + ["docker", "flask"])] + ([MakeDirs(root + ["docker", "fastapi"])]
      + ([MakeDirs(root + ["docker", "django"])] + (env + rest)));
    failed := MakeDir(m, root + ["docker", "flask"],
                      [MakeDirs(root + ["docker", "fastapi"])] + ([MakeDirs(root + ["docker", "django"])] + (env + rest)));
    if failed.Some? { return; }
    failed := MakeDir(m, root + ["docker", "fastapi"], [MakeDirs(root + ["docker", "django"])] + (env + rest));
    if failed.Some? { return; }
    failed := MakeDir(m, root + ["docker", "django"], env + rest);
    if failed.Some? { return; }
    failed := WriteIfMissing(m, root + [".env.example"], EnvText(ENV_EXAMPLE), rest);
  }

  /** The Flask block. */
  method Flask(m: Machine, root: Path, ghost rest: seq<Op>) returns (failed: Option<Path>)
    modifies m`fs
    ensures failed.Some? ==> Apply(old(m.fs), SectionOps(root, FLASK) + rest) == Applied(m.fs, failed)
    ensures failed.None? ==> Apply(old(m.fs), SectionOps(root, FLASK) + rest) == Apply(m.fs, rest)
  {
    var d := root + ["flask-demo"];
    ghost var r4 := Always(ComposePath(root, "flask"), ComposeText(FLASK_COMPOSE)) + rest;
    ghost var r3 := IfMissing(d + ["Dockerfile"], DockerfileText(FLASK_DOCKERFILE)) + r4;
    ghost var r2 := IfMissing(d + ["app.py"], FLASK_APP) + r3;
    ghost var r1 := IfMissing(d + ["requirements.txt"], FLASK_REQ) + r2;
    FilesOpsUnfold3(d, FLASK.files);
    assert SectionOps(root, FLASK) + rest == [MakeDirs(d)] + r1;
    failed := MakeDir(m, d, r1);
    if failed.Some? { return; }
    failed := WriteIfMissing(m, d + ["requirements.txt"], FLASK_REQ, r2);
    if failed.Some? { return; }
    failed := WriteIfMissing(m, d + ["app.py"], FLASK_APP, r3);
    if failed.Some? { return; }
    failed := WriteIfMissing(m, d + ["Dockerfile"], DockerfileText(FLASK_DOCKERFILE), r4);
    if failed.Some? { return; }
    failed := WriteAlways(m, ComposePath(root, "flask"), ComposeText(FLASK_COMPOSE), rest);
  }

  /** The FastAPI block. */
  method Fastapi(m: Machine, root: Path, ghost rest: seq<Op>) returns (failed: Option<Path>)
    modifies m`fs
    ensures failed.Some? ==> Apply(old(m.fs), SectionOps(root, FASTAPI) + rest) == Applied(m.fs, failed)
    ensures failed.None? ==> Apply(old(m.fs), SectionOps(root, FASTAPI) + rest) == Apply(m.fs, rest)
  {
    var d := root + ["fastapi-demo"];
    ghost var r4 := Always(ComposePath(root, "fastapi"), ComposeText(FASTAPI_COMPOSE)) + rest;
    ghost var r3 := IfMissing(d + ["Dockerfile"], DockerfileText(FASTAPI_DOCKERFILE)) + r4;
    ghost var r2 := IfMissing(d + ["main.py"], FASTAPI_APP) + r3;
    ghost var r1 := IfMissing(d + ["requirements.txt"], FASTAPI_REQ) + r2;
    FilesOpsUnfold3(d, FASTAPI.files);
    assert SectionOps(root, FASTAPI) + rest == [MakeDirs(d)] + r1;
    failed := MakeDir(m, d, r1);
    if failed.Some? { return; }
    failed := WriteIfMissing(m, d + ["requirements.txt"], FASTAPI_REQ, r2);
    if failed.Some? { return; }
    failed := WriteIfMissing(m, d + ["main.py"], FASTAPI_APP, r3);
    if failed.Some? { return; }
    failed := WriteIfMissing(m, d + ["Dockerfile"], DockerfileText(FASTAPI_DOCKERFILE), r4);
    if failed.Some? { return; }
    failed := WriteAlways(m, ComposePath(root, "fastapi"), ComposeText(FASTAPI_COMPOSE), rest);
  }

  /** The Django block. */
  method Django(m: Machine, root: Path, ghost rest: seq<Op>) returns (failed: Option<Path>)
    modifies m`fs
    ensures failed.Some? ==> Apply(old(m.fs), SectionOps(root, DJANGO) + rest) == Applied(m.fs, failed)
    ensures failed.None? ==> Apply(old(m.fs), SectionOps(root, DJANGO) + rest) == Apply(m.fs, rest)
  {
    var d := root + ["django-demo"];
    ghost var r3 := Always(ComposePath(root, "django"), ComposeText(DJANGO_COMPOSE)) + rest;
    ghost var r2 := IfMissing(d + ["Dockerfile"], DockerfileText(DJANGO_DOCKERFILE)) + r3;
    ghost var r1 := IfMissing(d + ["requirements.txt"], DJANGO_REQ) + r2;
    FilesOpsUnfold2(d, DJANGO.files);
    assert SectionOps(root, DJANGO) + rest == [MakeDirs(d)] + r1;
    failed := MakeDir(m, d, r1);
    if failed.Some? { return; }
    failed := WriteIfMissing(m, d + ["requirements.txt"], DJANGO_REQ, r2);
    if failed.Some? { return; }
    failed := WriteIfMissing(m, d + ["Dockerfile"], DockerfileText(DJANGO_DOCKERFILE), r3);
    if failed.Some? { return; }
    failed := WriteAlways(m, ComposePath(root, "django"), ComposeText(DJANGO_COMPOSE), rest);
  }

  /** `main`: the whole sequence, ending with status 0, or with the exception
      of the first mkdir or write that raised. */
  method Scaffold(m: Machine, root: Path) returns (o: Outcome)
    modifies m`fs
    ensures var a := Apply(old(m.fs), ScaffoldOps(root));
      m.fs == a.fs && o == if a.failed.None? then Exit(0) else Raised(FileSystemError(a.failed.value))
  {
    ghost var none: seq<Op> := [];
    ghost var r3 := SectionOps(root, DJANGO) + none;
    ghost var r2 := SectionOps(root, FASTAPI) + r3;
    ghost var r1 := SectionOps(root, FLASK) + r2;
    ScaffoldOpsUnfold(root);
    assert ScaffoldOps(root) == BaseOps(root, EnvText(ENV_EXAMPLE)) + r1;
    var failed := Base(m, root, r1);
    if failed.None? {
      failed := Flask(m, root, r2);
    }
    if failed.None? {
      failed := Fastapi(m, root, r3);
    }
    if failed.None? {
      failed := Django(m, root, none);
    }
    o := if failed.None? then Exit(0) else Raised(FileSystemError(failed.value));
  }
}
