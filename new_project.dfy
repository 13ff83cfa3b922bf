/** The scaffold generator `scripts/new.py`: for a project type it creates the
    project directory and writes the entry point and both dependency specs,
    each only if no such file exists yet. */
module NewProject {
  import opened Host
  import opened Writers

  const FLASK_APP: string :=
    "from flask import Flask, jsonify, request\napp = Flask(__name__)\n\n@app.get(\"/\")\ndef index():\n"
    + "    return {\"message\": \"Hello from Flask!\"}\n\n@app.get(\"/echo/<name>\")\ndef echo(name):\n"
    + "    return jsonify(hello=name, q=request.args.get(\"q\"))\n"
  const FLASK_REQ: string := "flask>=3,<4\ngunicorn>=21\n"
  const FLASK_LOCK: string := "flask==3.1.2\ngunicorn==23.0.0\n"

  const FASTAPI_APP: string :=
    "from fastapi import FastAPI\nfrom pydantic import BaseModel\napp = FastAPI()\n\n@app.get('/')\n"
    + "def read_root():\n    return {'message': 'Hello from FastAPI!'}\n\nclass Item(BaseModel):\n"
    + "    name: str\n    qty: int\n\n@app.post('/items')\ndef create_item(item: Item):\n"
    + "    return {'ok': True, 'item': item}\n"
  const FASTAPI_REQ: string := "fastapi>=0.115\nuvicorn[standard]>=0.30\ngunicorn>=21\npydantic>=2.8\n"
  const FASTAPI_LOCK: string := "fastapi==0.115.0\nuvicorn[standard]==0.30.6\ngunicorn==23.0.0\npydantic==2.8.2\n"

  const DJANGO_REQ: string := "django>=5.0,<6\ngunicorn>=21\n"
  const DJANGO_LOCK: string := "django==5.0.6\ngunicorn==23.0.0\n"
  const DJANGO_README: string := "Django will be initialized on first run: ./scripts/run.sh django\n"

  /** One generated file: its name inside the project directory and its text. */
  datatype Artifact = Artifact(name: string, content: string)

  /** A project type's directory (relative to the repository root) and its
      files, in the order they are written. */
  datatype Layout = Layout(dir: string, files: seq<Artifact>)

  function LayoutOf(kind: string): Option<Layout>
  {
    if kind == "flask" then
      Some(Layout("flask-demo", [Artifact("app.py", FLASK_APP), Artifact("requirements.txt", FLASK_REQ),
                                 Artifact("requirements-lock.txt", FLASK_LOCK)]))
    else if kind == "fastapi" then
      Some(Layout("fastapi-demo", [Artifact("main.py", FASTAPI_APP), Artifact("requirements.txt", FASTAPI_REQ),
                                   Artifact("requirements-lock.txt", FASTAPI_LOCK)]))
    else if kind == "django" then
      Some(Layout("django-demo", [Artifact("requirements.txt", DJANGO_REQ), Artifact("requirements-lock.txt", DJANGO_LOCK),
                                  Artifact("README.txt", DJANGO_README)]))
    else None
  }

  /** The write steps of a layout under `root`: make the directory, then each
      file create-if-missing. */
  function Ops(d: Path, files: seq<Artifact>): (ops: seq<Op>)
    requires |files| == 3
  {
    [MakeDirs(d), Put(d + [files[0].name], files[0].content, SkipIfFile),
     Put(d + [files[1].name], files[1].content, SkipIfFile),
     Put(d + [files[2].name], files[2].content, SkipIfFile)]
  }

  function OpsFor(root: Path, kind: string): seq<Op>
    requires LayoutOf(kind).Some?
  {
    Ops(root + [LayoutOf(kind).value.dir], LayoutOf(kind).value.files)
  }

  // ---------------------------------------------------------------------------
  // What the generator guarantees

  predicate DistinctNames(files: seq<Artifact>)
  {
    forall i, j :: 0 <= i < j < |files| ==> files[i].name != files[j].name
  }

  lemma LayoutsDistinct(kind: string)
    requires LayoutOf(kind).Some?
    ensures DistinctNames(LayoutOf(kind).value.files)
  {
  }

  lemma TouchedByOps(d: Path, files: seq<Artifact>)
    requires |files| == 3
    ensures Touched(Ops(d, files)) == Prefixes(d) + {d + [files[0].name], d + [files[1].name], d + [files[2].name]}
  {
    var ops := Ops(d, files);
    forall k ensures k in Touched(ops) <==> k in Prefixes(d) + {d + [files[0].name], d + [files[1].name], d + [files[2].name]} {
      TouchedIff(ops, k);
      assert TouchedBy(ops[0]) == Prefixes(d);
      assert TouchedBy(ops[1]) == {d + [files[0].name]};
      assert TouchedBy(ops[2]) == {d + [files[1].name]};
      assert TouchedBy(ops[3]) == {d + [files[2].name]};
    }
  }

  /** Each known type writes exactly its three files, in its own directory. */
  lemma TypeWritesItsFiles(root: Path, kind: string)
    requires LayoutOf(kind).Some?
    ensures var d := root + [LayoutOf(kind).value.dir];
      && (kind == "flask" ==>
            d == root + ["flask-demo"] &&
            Touched(OpsFor(root, kind)) == Prefixes(d) + {d + ["app.py"], d + ["requirements.txt"], d + ["requirements-lock.txt"]})
      && (kind == "fastapi" ==>
            d == root + ["fastapi-demo"] &&
            Touched(OpsFor(root, kind)) == Prefixes(d) + {d + ["main.py"], d + ["requirements.txt"], d + ["requirements-lock.txt"]})
      && (kind == "django" ==>
            d == root + ["django-demo"] &&
            Touched(OpsFor(root, kind)) == Prefixes(d) + {d + ["requirements.txt"], d + ["requirements-lock.txt"], d + ["README.txt"]})
  {
    TouchedByOps(root + [LayoutOf(kind).value.dir], LayoutOf(kind).value.files);
  }

  /** The generator only adds the project directory (with any missing parents)
      and its three files: any other path is exactly as before, whether the
      run finished or raised. */
  lemma OnlyProjectFilesChange(fs: FileMap, d: Path, files: seq<Artifact>, k: Path)
    requires |files| == 3
    requires k !in Prefixes(d) && !(|k| == |d| + 1 && k[..|d|] == d)
    ensures k in Apply(fs, Ops(d, files)).fs <==> k in fs
    ensures k in fs ==> Apply(fs, Ops(d, files)).fs[k] == fs[k]
  {
    TouchedByOps(d, files);
    ApplyFrame(fs, Ops(d, files), k);
  }

  /** No existing entry is ever changed: every file is create-if-missing. */
  lemma UserEditsPreserved(fs: FileMap, d: Path, files: seq<Artifact>, k: Path)
    requires |files| == 3
    requires k in fs
    ensures k in Apply(fs, Ops(d, files)).fs && Apply(fs, Ops(d, files)).fs[k] == fs[k]
  {
    var ops := Ops(d, files);
    assert !Overwrites(ops, k) by {
      forall i | 0 <= i < |ops| ensures !Rewrites(ops[i], k) {}
    }
    ApplyPreserves(fs, ops, k);
  }

  /** A file that was missing holds exactly its template after a run that did
      not raise. */
  lemma MissingFileWritten(fs: FileMap, d: Path, files: seq<Artifact>, i: int)
    requires |files| == 3 && DistinctNames(files) && 0 <= i < 3
    requires d + [files[i].name] !in fs
    requires Apply(fs, Ops(d, files)).failed.None?
    ensures d + [files[i].name] in Apply(fs, Ops(d, files)).fs
    ensures Apply(fs, Ops(d, files)).fs[d + [files[i].name]] == File(files[i].content, false)
  {
    var ops := Ops(d, files);
    var p := d + [files[i].name];
    forall q | q in Prefixes(d) ensures q != p {
      PrefixOf(d, q);
    }
    forall j | 0 <= j < 3 && j != i ensures d + [files[j].name] != p {
      assert (d + [files[j].name])[|d|] == files[j].name;
    }
    forall j | 0 <= j < 4 && j != i + 1 ensures p !in TouchedBy(ops[j]) {}
    TouchedIff(ops[..i + 1], p);
    TouchedIff(ops[i + 2..], p);
    Creates(fs, ops, i + 1);
  }

  /** Running the generator again for the same type ends exactly as the
      first run did: after a run that did not raise it changes nothing, and
      after one that raised it raises at the same path, on the same files. */
  lemma RerunChangesNothing(fs: FileMap, d: Path, files: seq<Artifact>)
    requires |files| == 3
    ensures Apply(Apply(fs, Ops(d, files)).fs, Ops(d, files)) == Apply(fs, Ops(d, files))
    ensures Apply(fs, Ops(d, files)).failed.None? ==>
      Apply(Apply(fs, Ops(d, files)).fs, Ops(d, files)) == Applied(Apply(fs, Ops(d, files)).fs, None)
  {
    Rerun(fs, Ops(d, files), map[]);
  }

  // ---------------------------------------------------------------------------
  // The script

  /** `write_if_missing`: an existing regular file is skipped, anything else is
      opened for writing (which raises on a directory). */
  method WriteIfMissing(m: Machine, p: Path, content: string) returns (ok: bool)
    modifies m`fs
    ensures Applied(m.fs, if ok then None else Some(p)) == Step(old(m.fs), Put(p, content, SkipIfFile))
    ensures IsFile(old(m.fs), p) ==> ok && m.fs == old(m.fs)
  {
    if IsFile(m.fs, p) {
      return true;
    }
    ok := m.WriteText(p, content);
  }

  /** The body shared by every type's branch: make the directory, then write
      the three files in order, stopping at the first that raises. */
  method Materialize(m: Machine, d: Path, files: seq<Artifact>) returns (o: Outcome)
    requires |files| == 3
    modifies m`fs
    ensures var a := Apply(old(m.fs), Ops(d, files));
      m.fs == a.fs && o == if a.failed.None? then Exit(0) else Raised(FileSystemError(a.failed.value))
  {
    var ops := Ops(d, files);
    ghost var fs0 := m.fs;
    var ok := m.MakeDirs(d);
    if !ok {
      return Raised(FileSystemError(d));
    }
    assert Apply(fs0, ops) == Apply(m.fs, ops[1..]);
    ghost var fs1 := m.fs;
    ok := WriteIfMissing(m, d + [files[0].name], files[0].content);
    if !ok {
      return Raised(FileSystemError(d + [files[0].name]));
    }
    assert Apply(fs1, ops[1..]) == Apply(m.fs, ops[2..]);
    ghost var fs2 := m.fs;
    ok := WriteIfMissing(m, d + [files[1].name], files[1].content);
    if !ok {
      return Raised(FileSystemError(d + [files[1].name]));
    }
    assert Apply(fs2, ops[2..]) == Apply(m.fs, ops[3..]);
    ghost var fs3 := m.fs;
    ok := WriteIfMissing(m, d + [files[2].name], files[2].content);
    if !ok {
      return Raised(FileSystemError(d + [files[2].name]));
    }
    assert Apply(fs3, ops[3..]) == Apply(m.fs, ops[4..]);
    return Exit(0);
  }

  /** `main`: usage error 2 without a type, 3 for an unknown type (before
      anything is written), otherwise the type's files. */
  method Scaffold(m: Machine, root: Path, argv: seq<string>) returns (o: Outcome)
    modifies m`fs
    ensures |argv| < 2 ==> o == Exit(2) && m.fs == old(m.fs)
    ensures |argv| >= 2 && LayoutOf(argv[1]).None? ==> o == Exit(3) && m.fs == old(m.fs)
    ensures |argv| >= 2 && LayoutOf(argv[1]).Some? ==>
      var a := Apply(old(m.fs), OpsFor(root, argv[1]));
      m.fs == a.fs && o == if a.failed.None? then Exit(0) else Raised(FileSystemError(a.failed.value))
  {
    if |argv| < 2 {
      return Exit(2);
    }
    var t := argv[1];
    if t == "flask" {
      o := Materialize(m, root + ["flask-demo"], LayoutOf(t).value.files);
    } else if t == "fastapi" {
      o := Materialize(m, root + ["fastapi-demo"], LayoutOf(t).value.files);
    } else if t == "django" {
      o := Materialize(m, root + ["django-demo"], LayoutOf(t).value.files);
    } else {
      return Exit(3);
    }
  }
}
