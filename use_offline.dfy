/** The offline builder `scripts/use_offline.py`: load the saved base image,
    stage every project's cached wheels into the project, build the three
    images with the network off, and export them; any failing command ends the
    script with that command's status. */
module UseOffline {
  import opened Host
  import opened PrepareOffline

  /** The base image file the script loads. */
  const BASE_TAR: string := "python-3.12-slim.tar"

  /** The image name of each project, in build order. */
  const NAMES: seq<string> := ["flask", "fastapi", "django"]

  function Images(root: Path): Path { root + ["caches", "images"] }

  function BaseTar(root: Path): Path { Images(root) + [BASE_TAR] }

  /** Where a project's wheels are cached, and where they are staged. */
  function Src(root: Path, p: string): Path { root + ["caches", "wheels", p] }

  function Dst(root: Path, p: string): Path { root + [p, "wheels"] }

  function Built(root: Path): Path { Images(root) + ["built"] }

  /** The image tag a project is built under. */
  function Tag(name: string): string { "practice/" + name + "-offline:latest" }

  // ---------------------------------------------------------------------------
  // Agreement with the cache builder

  /** The file loaded is the one the cache builder saves for its default base
      image, and the wheels are read from where it downloads them. */
  lemma CacheLayoutAgrees(root: Path, p: string)
    ensures BASE_TAR == TarName(DEFAULT_BASE_IMAGE)
    ensures BaseTar(root) == Cache(root) + ["images", TarName(DEFAULT_BASE_IMAGE)]
    ensures Src(root, p) == WheelsDir(root, p)
  {
    DefaultTarName();
  }

  // ---------------------------------------------------------------------------
  // Copying the wheels

  /** `copy_contents` copies the entry `src + r`: a child of `src`, or
      anything under a child directory. */
  predicate Copied(fs: FileMap, src: Path, r: Path)
  {
    |r| > 0 && src + r in fs && (|r| == 1 || IsDir(fs, src + r[..1]))
  }

  lemma CopiedChild(fs: FileMap, src: Path, r: Path)
    requires Copied(fs, src, r)
    ensures r[0] in Children(fs, src)
    ensures |r| > 1 ==> IsDir(fs, src + [r[0]])
  {
    if |r| > 1 {
      assert r[..1] == [r[0]];
    }
    var k := src + r[..1];
    if |r| == 1 {
      assert r[..1] == r;
    }
    assert k in fs && |k| == |src| + 1 && k[..|src|] == src && k[|src|] == r[0];
  }

  lemma ChildIn(fs: FileMap, src: Path, n: string)
    requires n in Children(fs, src)
    ensures src + [n] in fs
  {
    var k :| k in fs && |k| == |src| + 1 && k[..|src|] == src && k[|src|] == n;
    assert k == src + [n];
  }

  /** The loop of `copy_contents` when the names in `todo` are still to be
      copied: nothing that was there has changed, every entry of a copied
      child is at its place under `dst`, and nothing else is new. */
  ghost predicate Copying(fs0: FileMap, fs: FileMap, src: Path, dst: Path, todo: set<string>)
  {
    && (forall k :: k in fs0 ==> k in fs && fs[k] == fs0[k])
    && (forall r :: Copied(fs0, src, r) && r[0] !in todo ==> dst + r in fs && fs[dst + r] == fs0[src + r])
    && (forall k :: k in fs && k !in fs0 ==>
          Within(dst, k) && Copied(fs0, src, k[|dst|..]) && k[|dst|] !in todo)
  }

  /** The cache side is untouched while copying. */
  lemma CopyingKeepsSource(fs0: FileMap, fs: FileMap, src: Path, dst: Path, todo: set<string>, k: Path)
    requires Apart(src, dst) && Copying(fs0, fs, src, dst, todo) && Under(src, k)
    ensures k in fs <==> k in fs0
    ensures k in fs ==> fs[k] == fs0[k]
  {
    ApartUnder(src, dst, k);
  }

  /** What `copytree` adds lies under the child's place in `dst`. */
  lemma GraftedUnder(fs: FileMap, s: Path, dst: Path, n: string)
    ensures forall k :: k in Grafted(fs, s, dst + [n]) ==> Within(dst, k) && k[|dst|] == n
  {
    var d := dst + [n];
    forall k | k in Grafted(fs, s, d) ensures Within(dst, k) && k[|dst|] == n {
      assert k[..|dst|] == k[..|d|][..|dst|];
      assert k[|dst|] == k[..|d|][|dst|];
    }
  }

  /** An entry of child `n` that was there from the start is grafted at its
      place under `dst`. */
  lemma GraftedEntry(fs0: FileMap, fs: FileMap, src: Path, dst: Path, n: string, r: Path)
    requires forall k :: k in fs0 ==> k in fs && fs[k] == fs0[k]
    requires |r| > 0 && r[0] == n && src + r in fs0
    ensures var g := Grafted(fs, src + [n], dst + [n]);
      dst + r in g && g[dst + r] == fs0[src + r]
  {
    var s, d, x := src + [n], dst + [n], r[1..];
    assert r == [n] + x;
    assert src + r == s + x && dst + r == d + x;
    var k := s + x;
    assert k in fs && |s| <= |k| && k[..|s|] == s && k[|s|..] == x;
    assert x in Relative(fs, s);
  }

  /** After `copytree` of child `n`, every entry of `n` is at its place. */
  lemma TreeCopies(fs0: FileMap, fs: FileMap, src: Path, dst: Path, todo: set<string>, n: string)
    requires Copying(fs0, fs, src, dst, todo) && n in todo
    ensures var fs' := fs + Grafted(fs, src + [n], dst + [n]);
      forall r :: Copied(fs0, src, r) && r[0] !in todo - {n} ==> dst + r in fs' && fs'[dst + r] == fs0[src + r]
  {
    var g := Grafted(fs, src + [n], dst + [n]);
    var fs' := fs + g;
    GraftedUnder(fs, src + [n], dst, n);
    forall r | Copied(fs0, src, r) && r[0] !in todo - {n} ensures dst + r in fs' && fs'[dst + r] == fs0[src + r] {
      if r[0] == n {
        GraftedEntry(fs0, fs, src, dst, n, r);
      } else {
        assert (dst + r)[|dst|] == r[0];
        assert dst + r !in g;
      }
    }
  }

  /** An entry grafted from child `n` is a copy of an entry of `n`. */
  lemma GraftedFrom(fs0: FileMap, fs: FileMap, src: Path, dst: Path, todo: set<string>, n: string, k: Path)
    requires Apart(src, dst) && Copying(fs0, fs, src, dst, todo) && IsDir(fs, src + [n])
    requires k in Grafted(fs, src + [n], dst + [n])
    ensures Copied(fs0, src, k[|dst|..])
  {
    var s, d := src + [n], dst + [n];
    CopyingKeepsSource(fs0, fs, src, dst, todo, s);
    var x := k[|d|..];
    assert x in Relative(fs, s);
    CopyingKeepsSource(fs0, fs, src, dst, todo, s + x);
    var r := k[|dst|..];
    assert k == d + x;
    assert r == [n] + x;
    assert src + r == s + x;
    assert r[..1] == [n];
  }

  /** After `copytree` of child `n`, every new entry is a copy of an entry of `n`. */
  lemma TreeNew(fs0: FileMap, fs: FileMap, src: Path, dst: Path, todo: set<string>, n: string)
    requires Apart(src, dst)
    requires Copying(fs0, fs, src, dst, todo) && n in todo && IsDir(fs, src + [n])
    ensures var fs' := fs + Grafted(fs, src + [n], dst + [n]);
      forall k :: k in fs' && k !in fs0 ==> Within(dst, k) && Copied(fs0, src, k[|dst|..]) && k[|dst|] !in todo - {n}
  {
    var g := Grafted(fs, src + [n], dst + [n]);
    GraftedUnder(fs, src + [n], dst, n);
    forall k | k in g ensures Copied(fs0, src, k[|dst|..]) {
      GraftedFrom(fs0, fs, src, dst, todo, n, k);
    }
  }

  /** Copying a child directory with `copytree`. */
  lemma TreeStep(fs0: FileMap, fs: FileMap, src: Path, dst: Path, todo: set<string>, n: string)
    requires Apart(src, dst) && forall k :: k in fs0 ==> !Within(dst, k)
    requires Copying(fs0, fs, src, dst, todo) && n in todo && IsDir(fs, src + [n])
    ensures Copying(fs0, fs + Grafted(fs, src + [n], dst + [n]), src, dst, todo - {n})
  {
    GraftedUnder(fs, src + [n], dst, n);
    TreeCopies(fs0, fs, src, dst, todo, n);
    TreeNew(fs0, fs, src, dst, todo, n);
  }

  /** Copying a child file with `copy2`. */
  lemma FileStep(fs0: FileMap, fs: FileMap, src: Path, dst: Path, todo: set<string>, n: string)
    requires Apart(src, dst) && forall k :: k in fs0 ==> !Within(dst, k)
    requires Copying(fs0, fs, src, dst, todo) && n in todo && src + [n] in fs && !IsDir(fs, src + [n])
    ensures Copying(fs0, fs[dst + [n] := fs[src + [n]]], src, dst, todo - {n})
  {
    var s, d := src + [n], dst + [n];
    var fs' := fs[d := fs[s]];
    CopyingKeepsSource(fs0, fs, src, dst, todo, s);
    assert d !in fs0 by {
      assert Within(dst, d);
    }
    forall r | Copied(fs0, src, r) && r[0] !in todo - {n} ensures dst + r in fs' && fs'[dst + r] == fs0[src + r] {
      if r[0] == n {
        CopiedChild(fs0, src, r);
        assert |r| == 1;
        assert r == [n];
      } else {
        assert (dst + r)[|dst|] != n;
      }
    }
    forall k | k in fs' && k !in fs0
      ensures Within(dst, k) && Copied(fs0, src, k[|dst|..]) && k[|dst|] !in todo - {n}
    {
      if k == d {
        assert k[|dst|..] == [n];
      }
    }
  }

  /** `copy_contents(src, dst)`: an empty source raises `No wheels found in
      <src>`; otherwise each child is copied under `dst`, a directory with
      everything below it, and nothing that was there changes. */
  method CopyContents(m: Machine, src: Path, dst: Path) returns (error: Option<string>)
    requires Apart(src, dst) && forall k :: k in m.fs ==> !Within(dst, k)
    modifies m`fs
    ensures error == if Children(old(m.fs), src) == {} then Some("No wheels found in " + Abs(src)) else None
    ensures error.Some? ==> m.fs == old(m.fs)
    ensures forall k :: k in old(m.fs) ==> k in m.fs && m.fs[k] == old(m.fs)[k]
    ensures forall r :: Copied(old(m.fs), src, r) ==> dst + r in m.fs && m.fs[dst + r] == old(m.fs)[src + r]
    ensures forall k :: k in m.fs && k !in old(m.fs) ==> Within(dst, k) && Copied(old(m.fs), src, k[|dst|..])
  {
    var items := Children(m.fs, src);
    ghost var fs0 := m.fs;
    forall r | Copied(fs0, src, r) ensures r[0] in items {
      CopiedChild(fs0, src, r);
    }
    if items == {} {
      return Some("No wheels found in " + Abs(src));
    }
    var todo := items;
    while todo != {}
      invariant todo <= items
      invariant Copying(fs0, m.fs, src, dst, todo)
      decreases |todo|
    {
      var n :| n in todo;
      ChildIn(fs0, src, n);
      CopyingKeepsSource(fs0, m.fs, src, dst, todo, src + [n]);
      if IsDir(m.fs, src + [n]) {
        TreeStep(fs0, m.fs, src, dst, todo, n);
        m.CopyTree(src + [n], dst + [n]);
      } else {
        FileStep(fs0, m.fs, src, dst, todo, n);
        m.CopyFile(src + [n], dst + [n]);
      }
      todo := todo - {n};
    }
    return None;
  }

  // ---------------------------------------------------------------------------
  // Staging one project

  /** A change that stays under `d`: outside it nothing is lost or altered,
      and only the directories on the way to `d` are new. */
  ghost predicate Confined(fs0: FileMap, fs: FileMap, d: Path)
  {
    && (forall k :: k in fs0 && !Under(d, k) ==> k in fs && fs[k] == fs0[k])
    && (forall k :: k in fs && !Under(d, k) ==> k in fs0 || k in Prefixes(d))
  }

  /** Two filesystems agree on everything under `s`. */
  ghost predicate Agree(fs0: FileMap, fs: FileMap, s: Path)
  {
    && (forall k :: Under(s, k) && k in fs0 ==> k in fs && fs[k] == fs0[k])
    && (forall k :: Under(s, k) && k in fs ==> k in fs0)
  }

  /** `dst` is a directory holding exactly a copy of what `copy_contents`
      copies from `src` in `fs0`. */
  ghost predicate StagedCopy(fs0: FileMap, fs: FileMap, src: Path, dst: Path)
  {
    && IsDir(fs, dst)
    && (forall r :: Copied(fs0, src, r) ==> dst + r in fs && fs[dst + r] == fs0[src + r])
    && (forall k :: k in fs && Within(dst, k) ==> Copied(fs0, src, k[|dst|..]))
  }

  function MissingWheels(p: string, src: Path): string
  {
    "Missing wheels directory for " + p + ": " + Abs(src)
  }

  function CopyFailed(p: string, src: Path): string
  {
    "Failed copying wheels for " + p + ": " + "No wheels found in " + Abs(src)
  }

  /** What staging a project ends with: the `mkdir` raising, the cache
      directory missing, or an empty cache directory; `None` goes on. */
  function StageResult(fs: FileMap, p: string, src: Path, dst: Path): Option<Outcome>
  {
    if !CanMakeDirs(WithoutTree(fs, dst), dst) then Some(Raised(FileSystemError(dst)))
    else if !IsDir(fs, src) then Some(Abort(MissingWheels(p, src)))
    else if Children(fs, src) == {} then Some(Abort(CopyFailed(p, src)))
    else None
  }

  lemma AgreeTransfers(a: FileMap, b: FileMap, src: Path)
    requires Agree(a, b, src)
    ensures IsDir(a, src) == IsDir(b, src)
    ensures Children(a, src) == Children(b, src)
    ensures forall r :: Copied(a, src, r) <==> Copied(b, src, r)
    ensures forall r :: Copied(a, src, r) ==> a[src + r] == b[src + r]
  {
    assert Under(src, src);
    forall n ensures n in Children(a, src) <==> n in Children(b, src) {
      if n in Children(a, src) {
        ChildIn(a, src, n);
        assert (src + [n])[|src|] == n;
      }
      if n in Children(b, src) {
        ChildIn(b, src, n);
        assert (src + [n])[|src|] == n;
      }
    }
    forall r ensures Copied(a, src, r) <==> Copied(b, src, r) {
      if |r| > 0 {
        assert Under(src, src + r) && Under(src, src + r[..1]);
      }
    }
  }

  /** Clearing and recreating the staging directory: it is an empty
      directory, and the cache side is as it was. */
  lemma Cleared(fs0: FileMap, src: Path, dst: Path)
    requires Apart(src, dst) && CanMakeDirs(WithoutTree(fs0, dst), dst)
    ensures var fs1 := WithDirs(WithoutTree(fs0, dst), dst);
      && IsDir(fs1, dst) && Agree(fs0, fs1, src) && Confined(fs0, fs1, dst)
      && forall k :: k in fs1 ==> !Within(dst, k)
  {
    var fsR := WithoutTree(fs0, dst);
    var fs1 := WithDirs(fsR, dst);
    assert dst[..|dst|] == dst;
    forall k | Under(src, k) ensures !Under(dst, k) && k !in Prefixes(dst) {
      ApartUnder(src, dst, k);
    }
    assert !IsFile(fs0, dst) by {
      assert dst in Prefixes(dst);
    }
    forall k | k in fs1 ensures !Within(dst, k) {
      if k !in fsR {
        var i :| 1 <= i <= |dst| && k == dst[..i];
      }
    }
  }

  /** A copy that only adds entries under `dst` is confined to it. */
  lemma ConfinedAfterCopy(fs0: FileMap, fs1: FileMap, fs: FileMap, dst: Path)
    requires Confined(fs0, fs1, dst)
    requires forall k :: k in fs1 ==> k in fs && fs[k] == fs1[k]
    requires forall k :: k in fs && k !in fs1 ==> Within(dst, k)
    ensures Confined(fs0, fs, dst)
  {
  }

  /** The part of staging after the directory was made: the copy. */
  lemma StagedFromCopy(fs0: FileMap, fs1: FileMap, fs: FileMap, src: Path, dst: Path)
    requires Apart(src, dst) && IsDir(fs1, dst) && Agree(fs0, fs1, src)
    requires forall k :: k in fs1 ==> !Within(dst, k)
    requires forall r :: Copied(fs1, src, r) ==> dst + r in fs && fs[dst + r] == fs1[src + r]
    requires forall k :: k in fs && k !in fs1 ==> Within(dst, k) && Copied(fs1, src, k[|dst|..])
    requires forall k :: k in fs1 ==> k in fs && fs[k] == fs1[k]
    ensures StagedCopy(fs0, fs, src, dst)
  {
    AgreeTransfers(fs0, fs1, src);
  }

  /** `dst` is an empty directory. */
  predicate Emptied(fs: FileMap, dst: Path)
  {
    IsDir(fs, dst) && forall k :: k in fs ==> !Within(dst, k)
  }

  /** One iteration of the staging loop: clear and recreate the project's
      `wheels` directory, check the cache directory, copy its contents. */
  method Stage(m: Machine, p: string, src: Path, dst: Path) returns (stop: Option<Outcome>)
    requires Apart(src, dst)
    modifies m`fs
    ensures stop == StageResult(old(m.fs), p, src, dst)
    ensures Confined(old(m.fs), m.fs, dst)
    ensures stop.None? ==> StagedCopy(old(m.fs), m.fs, src, dst)
    ensures stop.Some? && stop.value.Raised? ==> m.fs == WithoutTree(old(m.fs), dst)
    ensures stop.Some? && stop.value.Abort? ==> Emptied(m.fs, dst)
  {
    ghost var fs0 := m.fs;
    m.RemoveTree(dst);
    var ok := m.MakeDirs(dst);
    if !ok {
      return Some(Raised(FileSystemError(dst)));
    }
    ghost var fs1 := m.fs;
    Cleared(fs0, src, dst);
    AgreeTransfers(fs0, fs1, src);
    if !IsDir(m.fs, src) {
      return Some(Abort(MissingWheels(p, src)));
    }
    var error := CopyContents(m, src, dst);
    if error.Some? {
      assert "Failed copying wheels for " + p + ": " + error.value == CopyFailed(p, src);
      return Some(Abort("Failed copying wheels for " + p + ": " + error.value));
    }
    ConfinedAfterCopy(fs0, fs1, m.fs, dst);
    StagedFromCopy(fs0, fs1, m.fs, src, dst);
    return None;
  }

  /** Staging another project's directory keeps this project's cache side
      as it was. */
  lemma ConfinedKeepsSource(fs0: FileMap, a: FileMap, b: FileMap, d: Path, src: Path)
    requires Confined(a, b, d) && Apart(src, d) && Agree(fs0, a, src)
    ensures Agree(fs0, b, src)
  {
    forall k | Under(src, k) ensures !Under(d, k) && k !in Prefixes(d) {
      ApartUnder(src, d, k);
    }
  }

  /** Staging another project's directory keeps this project's staged copy. */
  lemma ConfinedKeepsCopy(fs0: FileMap, a: FileMap, b: FileMap, d: Path, src: Path, dst: Path)
    requires Confined(a, b, d) && Apart(dst, d) && StagedCopy(fs0, a, src, dst)
    ensures StagedCopy(fs0, b, src, dst)
  {
    forall k | Under(dst, k) ensures !Under(d, k) && k !in Prefixes(d) {
      ApartUnder(dst, d, k);
    }
    assert Under(dst, dst);
    forall r ensures Under(dst, dst + r) {
      assert (dst + r)[..|dst|] == dst;
    }
  }

  /** A copy staged from a filesystem that agrees on the cache side. */
  lemma StagedAgree(fs0: FileMap, a: FileMap, fs: FileMap, src: Path, dst: Path)
    requires Agree(fs0, a, src) && StagedCopy(a, fs, src, dst)
    ensures StagedCopy(fs0, fs, src, dst)
  {
    AgreeTransfers(fs0, a, src);
  }

  /** The cache directories and the staging directories of the projects are
      separate subtrees. */
  lemma Separate(root: Path, i: int, j: int)
    requires 0 <= i < |PROJECTS| && 0 <= j < |PROJECTS|
    ensures Apart(Src(root, PROJECTS[j]), Dst(root, PROJECTS[i]))
    ensures i != j ==> Apart(Dst(root, PROJECTS[j]), Dst(root, PROJECTS[i]))
  {
    ApartAt(Src(root, PROJECTS[j]), Dst(root, PROJECTS[i]), |root|);
    if i != j {
      ApartAt(Dst(root, PROJECTS[j]), Dst(root, PROJECTS[i]), |root|);
    }
  }

  /** A project whose cache directory exists and is not empty. */
  predicate Ready(fs: FileMap, root: Path, p: string)
  {
    IsDir(fs, Src(root, p)) && Children(fs, Src(root, p)) != {}
  }

  /** How staging project `p` can fail, judged on the files as the staging
      loop found them (the `mkdir` of the staging directory raising, a missing
      cache directory, an empty one). */
  predicate StageFailure(fs: FileMap, root: Path, p: string, o: Outcome)
  {
    || o == Raised(FileSystemError(Dst(root, p)))
    || (o == Abort(MissingWheels(p, Src(root, p))) && !IsDir(fs, Src(root, p)))
    || (o == Abort(CopyFailed(p, Src(root, p))) && IsDir(fs, Src(root, p)) && Children(fs, Src(root, p)) == {})
  }

  /** The staging loop, in project order: every project's cache directory
      checked and copied before the next one, the first failure ending it. */
  method StageAll(m: Machine, root: Path) returns (stop: Option<Outcome>)
    modifies m`fs
    ensures stop.None? ==> forall i :: 0 <= i < |PROJECTS| ==>
      Ready(old(m.fs), root, PROJECTS[i]) && StagedCopy(old(m.fs), m.fs, Src(root, PROJECTS[i]), Dst(root, PROJECTS[i]))
    ensures stop.Some? ==>
      exists i :: (&& 0 <= i < |PROJECTS| && StageFailure(old(m.fs), root, PROJECTS[i], stop.value)
                   && (stop.value.Abort? ==> Emptied(m.fs, Dst(root, PROJECTS[i])))
                   && forall j :: 0 <= j < i ==>
                        Ready(old(m.fs), root, PROJECTS[j])
                        && StagedCopy(old(m.fs), m.fs, Src(root, PROJECTS[j]), Dst(root, PROJECTS[j])))
  {
    ghost var fs0 := m.fs;
    var i := 0;
    while i < |PROJECTS|
      invariant 0 <= i <= |PROJECTS|
      invariant forall j :: 0 <= j < |PROJECTS| ==> Agree(fs0, m.fs, Src(root, PROJECTS[j]))
      invariant forall j :: 0 <= j < i ==>
        Ready(fs0, root, PROJECTS[j]) && StagedCopy(fs0, m.fs, Src(root, PROJECTS[j]), Dst(root, PROJECTS[j]))
    {
      var p := PROJECTS[i];
      var src, dst := Src(root, p), Dst(root, p);
      ghost var fsA := m.fs;
      Separate(root, i, i);
      stop := Stage(m, p, src, dst);
      AgreeTransfers(fs0, fsA, src);
      if stop.Some? {
        assert StageFailure(fs0, root, PROJECTS[i], stop.value);
        forall j | 0 <= j < i
          ensures Ready(fs0, root, PROJECTS[j])
          ensures StagedCopy(fs0, m.fs, Src(root, PROJECTS[j]), Dst(root, PROJECTS[j]))
        {
          Separate(root, i, j);
          ConfinedKeepsCopy(fs0, fsA, m.fs, dst, Src(root, PROJECTS[j]), Dst(root, PROJECTS[j]));
        }
        return;
      }
      StagedAgree(fs0, fsA, m.fs, src, dst);
      forall j | 0 <= j < |PROJECTS|
        ensures Agree(fs0, m.fs, Src(root, PROJECTS[j]))
        ensures j < i ==> StagedCopy(fs0, m.fs, Src(root, PROJECTS[j]), Dst(root, PROJECTS[j]))
      {
        Separate(root, i, j);
        ConfinedKeepsSource(fs0, fsA, m.fs, dst, Src(root, PROJECTS[j]));
        if j < i {
          ConfinedKeepsCopy(fs0, fsA, m.fs, dst, Src(root, PROJECTS[j]), Dst(root, PROJECTS[j]));
        }
      }
      i := i + 1;
    }
    stop := None;
  }

  // ---------------------------------------------------------------------------
  // The commands

  /** `docker load` of the base image, in the directory the script runs in. */
  function Load(root: Path, here: Path): Action
  {
    Proc(["docker", "load", "-i", Abs(BaseTar(root))], here)
  }

  /** The offline build of project `i`, from the repository root. */
  function Build(root: Path, i: nat): Action
    requires i < |PROJECTS|
  {
    Proc(["docker", "build", "--network=none", "-t", Tag(NAMES[i]),
          "-f", "./" + PROJECTS[i] + "/Dockerfile.offline", "./" + PROJECTS[i]], root)
  }

  /** The export of image `i` into `images/built`. */
  function Export(root: Path, here: Path, i: nat): Action
    requires i < |NAMES|
  {
    Proc(["docker", "save", "-o", Abs(Built(root) + [NAMES[i] + "-offline.tar"]), Tag(NAMES[i])], here)
  }

  /** Every command `main` issues, in order. */
  function Plan(root: Path, here: Path): seq<Action>
  {
    [Load(root, here), Build(root, 0), Build(root, 1), Build(root, 2),
     Export(root, here, 0), Export(root, here, 1), Export(root, here, 2)]
  }

  /** The load first; the three builds in project order, each with the network
      off, from the root, tagging `practice/<name>-offline:latest`; then the
      three exports, each of the image just built. */
  lemma PlanOrder(root: Path, here: Path)
    ensures var plan := Plan(root, here);
      && |plan| == 1 + 2 * |PROJECTS|
      && plan[0].argv[..2] == ["docker", "load"]
      && forall i :: 0 <= i < |PROJECTS| ==>
           && plan[1 + i].argv[..3] == ["docker", "build", "--network=none"] && plan[1 + i].cwd == root
           && plan[1 + i].argv[4] == Tag(NAMES[i]) == plan[4 + i].argv[4]
           && plan[1 + i].argv[6] == "./" + PROJECTS[i] + "/Dockerfile.offline"
           && plan[4 + i].argv[..3] == ["docker", "save", "-o"]
           && plan[4 + i].argv[3] == Abs(Images(root) + ["built", NAMES[i] + "-offline.tar"])
  {
    forall i | 0 <= i < |PROJECTS| ensures Built(root) + [NAMES[i] + "-offline.tar"] == Images(root) + ["built", NAMES[i] + "-offline.tar"] {}
  }

  /** `run(cmd)`: a non-zero status ends the script with that status (after
      echoing its captured error output). */
  method Run(m: Machine, a: Action, ghost log0: seq<Event>, ghost plan: seq<Action>) returns (stop: Option<Outcome>)
    requires Running(log0, plan, m.trace) && |m.trace| - |log0| < |plan| && plan[|m.trace| - |log0|] == a
    modifies m
    ensures |old(m.trace)| <= |m.trace| <= |old(m.trace)| + 1 && m.trace[..|old(m.trace)|] == old(m.trace)
    ensures forall j :: 0 <= j < |old(m.trace)| ==> m.trace[j] == old(m.trace)[j]
    ensures |m.trace| > |old(m.trace)| ==> m.trace[|old(m.trace)|].before == old(m.fs)
    ensures |log0| <= |m.trace| && m.trace[..|log0|] == log0
    ensures stop.None? ==>
      && Running(log0, plan, m.trace) && |m.trace| == |old(m.trace)| + 1
      && m.trace[|m.trace| - 1].before == old(m.fs)
      && m.fs == old(m.fs) + m.effect(old(m.fs), old(m.trace), a)
    ensures stop.Some? ==>
      Ends(m.trace[|log0|..], plan, stop.value) && (stop.value.Exit? || stop.value == Raised(ProgramNotFound(Program(a))))
  {
    ghost var before := m.trace[|log0|..];
    var started, code := m.Spawn(a);
    if !started {
      return Some(Raised(ProgramNotFound(Program(a))));
    }
    assert m.trace[..|log0|] == log0;
    assert m.trace[|log0|..] == before + [m.trace[|m.trace| - 1]];
    assert plan[..|m.trace| - |log0|] == plan[..|before|] + [a];
    if code != 0 {
      return Some(Exit(code));
    }
    stop := None;
  }

  /** The builds, the export directory and the exports, once the wheels are
      staged. */
  method Finish(m: Machine, root: Path, here: Path, ghost log0: seq<Event>) returns (o: Outcome)
    requires Running(log0, Plan(root, here), m.trace) && |m.trace| == |log0| + 1
    modifies m
    ensures |old(m.trace)| <= |m.trace| && m.trace[..|old(m.trace)|] == old(m.trace)
    ensures forall j :: 0 <= j < |old(m.trace)| ==> m.trace[j] == old(m.trace)[j]
    ensures Ends(m.trace[|log0|..], Plan(root, here), o)
    ensures |m.trace| > |log0| + 1 ==> m.trace[|log0| + 1].before == old(m.fs)
    ensures |m.trace| > |log0| + 4 ==> IsDir(m.trace[|log0| + 4].before, Built(root))
    ensures o.Exit? || (o.Raised? && (o.error.ProgramNotFound? || o == Raised(FileSystemError(Built(root)))))
    ensures o.Raised? && o.error.FileSystemError? ==> |m.trace| == |log0| + 4
  {
    ghost var plan := Plan(root, here);
    var stop := Run(m, Build(root, 0), log0, plan);
    if stop.Some? { return stop.value; }
    stop := Run(m, Build(root, 1), log0, plan);
    if stop.Some? { return stop.value; }
    stop := Run(m, Build(root, 2), log0, plan);
    if stop.Some? { return stop.value; }
    o := Export3(m, root, here, log0);
  }

  method Export3(m: Machine, root: Path, here: Path, ghost log0: seq<Event>) returns (o: Outcome)
    requires Running(log0, Plan(root, here), m.trace) && |m.trace| == |log0| + 4
    modifies m
    ensures |old(m.trace)| <= |m.trace| && m.trace[..|old(m.trace)|] == old(m.trace)
    ensures forall j :: 0 <= j < |old(m.trace)| ==> m.trace[j] == old(m.trace)[j]
    ensures Ends(m.trace[|log0|..], Plan(root, here), o)
    ensures |m.trace| > |log0| + 4 ==> IsDir(m.trace[|log0| + 4].before, Built(root))
    ensures o.Exit? || (o.Raised? && (o.error.ProgramNotFound? || o == Raised(FileSystemError(Built(root)))))
    ensures o.Raised? && o.error.FileSystemError? ==> |m.trace| == |log0| + 4
  {
    ghost var plan := Plan(root, here);
    var ok := m.MakeDirs(Built(root));
    if !ok {
      return Raised(FileSystemError(Built(root)));
    }
    assert Built(root)[..|Built(root)|] == Built(root);
    var stop := Run(m, Export(root, here, 0), log0, plan);
    if stop.Some? { return stop.value; }
    stop := Run(m, Export(root, here, 1), log0, plan);
    if stop.Some? { return stop.value; }
    stop := Run(m, Export(root, here, 2), log0, plan);
    if stop.Some? { return stop.value; }
    assert plan[..|m.trace| - |log0|] == plan;
    o := Exit(0);
  }

  /** How the script ends once the base image exists, given the files `fsL`
      as the load left them: fail-fast over the plan; a staging failure (a
      missing or empty cache directory, a staging directory that cannot be
      made) of the first project that has one, right after the load; before
      the first build, every project holds exactly a copy of its cached
      wheels; before the first export, the export directory exists. */
  ghost predicate Offline(root: Path, here: Path, fsL: FileMap, events: seq<Event>, o: Outcome)
  {
    var plan := Plan(root, here);
    && Ends(events, plan, o)
    && (o.Exit? || o.Abort? || (o.Raised? && (o.error.ProgramNotFound? || o.error.FileSystemError?)))
    && (o.Abort? ==> |events| == 1)
    && (o.Raised? && o.error.FileSystemError? ==> |events| == 1 || (|events| == 4 && o.error.path == Built(root)))
    && (|events| == 1 && (o.Abort? || (o.Raised? && o.error.FileSystemError?)) ==>
          exists i :: (0 <= i < |PROJECTS| && StageFailure(fsL, root, PROJECTS[i], o) &&
                       forall j :: 0 <= j < i ==> Ready(fsL, root, PROJECTS[j])))
    && (|events| > 1 ==> forall i :: 0 <= i < |PROJECTS| ==>
          Ready(fsL, root, PROJECTS[i]) && StagedCopy(fsL, events[1].before, Src(root, PROJECTS[i]), Dst(root, PROJECTS[i])))
    && (|events| > 4 ==> IsDir(events[4].before, Built(root)))
  }

  /** `main`: a missing base image file ends the script before any command;
      otherwise load, stage, build and export. */
  method Script(m: Machine, root: Path, here: Path) returns (o: Outcome)
    modifies m
    ensures |old(m.trace)| <= |m.trace| && m.trace[..|old(m.trace)|] == old(m.trace)
    ensures BaseTar(root) !in old(m.fs) ==>
      o == Abort("Missing base image tar: " + Abs(BaseTar(root))) && m.fs == old(m.fs) && m.trace == old(m.trace)
    ensures BaseTar(root) in old(m.fs) ==>
      Offline(root, here, old(m.fs) + m.effect(old(m.fs), old(m.trace), Load(root, here)), m.trace[|old(m.trace)|..], o)
  {
    if BaseTar(root) !in m.fs {
      return Abort("Missing base image tar: " + Abs(BaseTar(root)));
    }
    ghost var log0, plan := m.trace, Plan(root, here);
    assert m.trace[|log0|..] == [];
    var stop := Run(m, Load(root, here), log0, plan);
    if stop.Some? {
      return stop.value;
    }
    ghost var fsL := m.fs;
    stop := StageAll(m, root);
    if stop.Some? {
      return stop.value;
    }
    ghost var fsS := m.fs;
    o := Finish(m, root, here, log0);
    assert |m.trace[|log0|..]| > 1 ==> m.trace[|log0|..][1].before == fsS;
  }
}
