/** The two scaffold generators write their artifacts under explicit policies:
    create the file only when it is missing (a user's edits survive a rerun),
    or always regenerate it. This module gives one write step its meaning, runs
    a sequence of steps fail-fast, and proves what sequences of such steps
    guarantee: every step is idempotent, a run leaves every user file it is not
    told to overwrite alone, touches nothing outside its targets, and a second
    run changes nothing. */
module Writers {
  import opened Host

  /** How a file artifact is written. */
  datatype Policy =
    | SkipIfFile     // write unless a regular file is there (`is_file()` test)
    | SkipIfExists   // write unless anything is there (`exists()` test)
    | Overwrite      // always write

  datatype Op = MakeDirs(path: Path) | Put(path: Path, content: string, policy: Policy)

  /** The files after some steps, and the path of the step that raised, if one did. */
  datatype Applied = Applied(fs: FileMap, failed: Option<Path>)

  function Step(fs: FileMap, op: Op): Applied
  {
    match op
    case MakeDirs(p) =>
      if CanMakeDirs(fs, p) then Applied(WithDirs(fs, p), None) else Applied(fs, Some(p))
    case Put(p, c, policy) =>
      if (policy == SkipIfFile && IsFile(fs, p)) || (policy == SkipIfExists && p in fs) then
        Applied(fs, None)
      else if CanWrite(fs, p) then
        Applied(Written(fs, p, c), None)
      else
        Applied(fs, Some(p))
  }

  /** The steps in order; the first one that raises ends the run. */
  function Apply(fs: FileMap, ops: seq<Op>): Applied
    decreases |ops|
  {
    if ops == [] then Applied(fs, None)
    else
      var a := Step(fs, ops[0]);
      if a.failed.Some? then a else Apply(a.fs, ops[1..])
  }

  /** The paths a step may create or change. */
  function TouchedBy(op: Op): set<Path>
  {
    match op
    case MakeDirs(p) => Prefixes(p)
    case Put(p, _, _) => {p}
  }

  function Touched(ops: seq<Op>): set<Path>
    decreases |ops|
  {
    if ops == [] then {} else TouchedBy(ops[0]) + Touched(ops[1..])
  }

  predicate Rewrites(op: Op, k: Path) { op.Put? && op.path == k && op.policy == Overwrite }

  /** Some step of `ops` always rewrites `k`. */
  predicate Overwrites(ops: seq<Op>, k: Path)
  {
    exists i :: 0 <= i < |ops| && Rewrites(ops[i], k)
  }

  /** `op` has nothing left to do in `fs`. */
  predicate Holds(op: Op, fs: FileMap)
  {
    match op
    case MakeDirs(p) => forall q :: q in Prefixes(p) ==> IsDir(fs, q)
    case Put(p, c, policy) =>
      match policy
      case SkipIfFile => IsFile(fs, p)
      case SkipIfExists => p in fs
      case Overwrite =>
        IsFile(fs, p) && fs[p].content == c && |p| > 0 && (|p| == 1 || IsDir(fs, p[..|p| - 1]))
  }

  /** Every overwritten path has one content: the one `templates` gives it. */
  predicate OverwritesFrom(ops: seq<Op>, templates: map<Path, string>)
  {
    forall i :: 0 <= i < |ops| && ops[i].Put? && ops[i].policy == Overwrite ==>
      ops[i].path in templates && templates[ops[i].path] == ops[i].content
  }

  // ---------------------------------------------------------------------------
  // One step

  lemma PrefixOf(p: Path, q: Path)
    requires q in Prefixes(p)
    ensures 1 <= |q| <= |p| && q == p[..|q|]
  {
  }

  lemma HoldsIsNoop(op: Op, fs: FileMap)
    requires Holds(op, fs)
    ensures Step(fs, op) == Applied(fs, None)
  {
    match op
    case MakeDirs(p) =>
      assert WithDirs(fs, p) == fs;
    case Put(p, c, policy) =>
      if policy == Overwrite {
        assert Written(fs, p, c) == fs;
      }
  }

  lemma StepEstablishes(op: Op, fs: FileMap)
    requires Step(fs, op).failed.None?
    ensures Holds(op, Step(fs, op).fs)
  {
    match op
    case MakeDirs(p) =>
    case Put(p, c, policy) =>
      if policy == Overwrite {
        var r := Written(fs, p, c);
        assert |p| > 1 ==> p[..|p| - 1] != p;
      }
  }

  /** A step that succeeds keeps what another step achieved, unless both
      rewrite one path with different contents. */
  lemma StepKeeps(done: Op, op: Op, fs: FileMap)
    requires Holds(done, fs)
    requires Step(fs, op).failed.None?
    requires done.Put? && op.Put? && done.path == op.path && done.policy == Overwrite && op.policy == Overwrite
             ==> done.content == op.content
    ensures Holds(done, Step(fs, op).fs)
  {
    var r := Step(fs, op).fs;
    match done
    case MakeDirs(p) =>
      forall q | q in Prefixes(p) ensures IsDir(r, q) {
        assert IsDir(fs, q);
      }
    case Put(p, c, policy) =>
      if policy == Overwrite && |p| > 1 {
        assert IsDir(fs, p[..|p| - 1]);
      }
  }

  lemma StepPreserves(fs: FileMap, op: Op, k: Path)
    requires k in fs
    requires !Rewrites(op, k)
    ensures k in Step(fs, op).fs && Step(fs, op).fs[k] == fs[k]
  {
  }

  lemma StepFrame(fs: FileMap, op: Op, k: Path)
    requires k !in TouchedBy(op)
    ensures k in Step(fs, op).fs <==> k in fs
    ensures k in fs ==> Step(fs, op).fs[k] == fs[k]
  {
  }

  // ---------------------------------------------------------------------------
  // Sequences of steps

  lemma {:induction false} ApplyAppend(fs: FileMap, a: seq<Op>, b: seq<Op>)
    ensures Apply(fs, a + b) ==
            (var r := Apply(fs, a); if r.failed.Some? then r else Apply(r.fs, b))
    decreases |a|
  {
    if a == [] {
      assert a + b == b;
    } else {
      assert (a + b)[0] == a[0];
      assert (a + b)[1..] == a[1..] + b;
      var s := Step(fs, a[0]);
      if s.failed.None? {
        ApplyAppend(s.fs, a[1..], b);
      }
    }
  }

  lemma ApplyCons(fs: FileMap, op: Op, rest: seq<Op>)
    ensures Apply(fs, [op] + rest) ==
            (var s := Step(fs, op); if s.failed.Some? then s else Apply(s.fs, rest))
  {
    assert ([op] + rest)[0] == op;
    assert ([op] + rest)[1..] == rest;
  }

  lemma {:induction false} TouchedAppend(a: seq<Op>, b: seq<Op>)
    ensures Touched(a + b) == Touched(a) + Touched(b)
    decreases |a|
  {
    if a == [] {
      assert a + b == b;
    } else {
      assert (a + b)[0] == a[0];
      assert (a + b)[1..] == a[1..] + b;
      TouchedAppend(a[1..], b);
    }
  }

  /** A path is touched by a run exactly when one of its steps touches it. */
  lemma {:induction false} TouchedIff(ops: seq<Op>, k: Path)
    ensures k in Touched(ops) <==> exists i :: 0 <= i < |ops| && k in TouchedBy(ops[i])
    decreases |ops|
  {
    if ops != [] {
      TouchedIff(ops[1..], k);
      if k in Touched(ops[1..]) {
        var i :| 0 <= i < |ops[1..]| && k in TouchedBy(ops[1..][i]);
        assert ops[i + 1] == ops[1..][i];
      }
      if exists i :: 0 <= i < |ops| && k in TouchedBy(ops[i]) {
        var i :| 0 <= i < |ops| && k in TouchedBy(ops[i]);
        if i > 0 {
          assert ops[1..][i - 1] == ops[i];
        }
      }
    }
  }

  lemma {:induction false} InTouched(ops: seq<Op>, i: int)
    requires 0 <= i < |ops|
    ensures TouchedBy(ops[i]) <= Touched(ops)
    decreases |ops|
  {
    if i > 0 {
      InTouched(ops[1..], i - 1);
    }
  }

  /** A run, finished or not, changes nothing outside the paths its steps name. */
  lemma {:induction false} ApplyFrame(fs: FileMap, ops: seq<Op>, k: Path)
    requires k !in Touched(ops)
    ensures k in Apply(fs, ops).fs <==> k in fs
    ensures k in fs ==> Apply(fs, ops).fs[k] == fs[k]
    decreases |ops|
  {
    if ops != [] {
      StepFrame(fs, ops[0], k);
      var s := Step(fs, ops[0]);
      if s.failed.None? {
        ApplyFrame(s.fs, ops[1..], k);
      }
    }
  }

  /** A run, finished or not, never changes an existing entry that no step
      overwrites: create-if-missing steps only fill gaps. */
  lemma {:induction false} ApplyPreserves(fs: FileMap, ops: seq<Op>, k: Path)
    requires k in fs
    requires !Overwrites(ops, k)
    ensures k in Apply(fs, ops).fs && Apply(fs, ops).fs[k] == fs[k]
    decreases |ops|
  {
    if ops != [] {
      StepPreserves(fs, ops[0], k);
      var s := Step(fs, ops[0]);
      if s.failed.None? {
        assert forall j :: 0 <= j < |ops[1..]| ==> ops[1..][j] == ops[j + 1];
        ApplyPreserves(s.fs, ops[1..], k);
      }
    }
  }

  lemma {:induction false} ApplyKeeps(done: Op, fs: FileMap, ops: seq<Op>, templates: map<Path, string>)
    requires Holds(done, fs)
    requires OverwritesFrom(ops, templates)
    requires OverwritesFrom([done], templates)
    ensures Holds(done, Apply(fs, ops).fs)
    decreases |ops|
  {
    var s := if ops == [] then Applied(fs, None) else Step(fs, ops[0]);
    if ops != [] && s.failed.None? {
      assert [done][0] == done;
      StepKeeps(done, ops[0], fs);
      assert OverwritesFrom(ops[1..], templates) by {
        forall i | 0 <= i < |ops[1..]| ensures ops[1..][i] == ops[i + 1] {}
      }
      ApplyKeeps(done, s.fs, ops[1..], templates);
    }
  }

  /** After a run that did not raise, every step has nothing left to do. */
  lemma {:induction false} ApplyEstablishes(fs: FileMap, ops: seq<Op>, templates: map<Path, string>)
    requires Apply(fs, ops).failed.None?
    requires OverwritesFrom(ops, templates)
    ensures forall i :: 0 <= i < |ops| ==> Holds(ops[i], Apply(fs, ops).fs)
    decreases |ops|
  {
    if ops != [] {
      var s := Step(fs, ops[0]);
      var rest := ops[1..];
      assert OverwritesFrom(rest, templates) by {
        forall i | 0 <= i < |rest| ensures rest[i] == ops[i + 1] {}
      }
      ApplyEstablishes(s.fs, rest, templates);
      StepEstablishes(ops[0], fs);
      assert OverwritesFrom([ops[0]], templates);
      ApplyKeeps(ops[0], s.fs, rest, templates);
      forall i | 0 < i < |ops| ensures Holds(ops[i], Apply(fs, ops).fs) {
        assert ops[i] == rest[i - 1];
      }
    }
  }

  lemma {:induction false} ApplyNoop(fs: FileMap, ops: seq<Op>)
    requires forall i :: 0 <= i < |ops| ==> Holds(ops[i], fs)
    ensures Apply(fs, ops) == Applied(fs, None)
    decreases |ops|
  {
    if ops != [] {
      HoldsIsNoop(ops[0], fs);
      assert forall i :: 0 <= i < |ops[1..]| ==> ops[1..][i] == ops[i + 1];
      ApplyNoop(fs, ops[1..]);
    }
  }

  /** The same, for a step named by value. */
  lemma EstablishesMember(fs: FileMap, ops: seq<Op>, templates: map<Path, string>, op: Op)
    requires Apply(fs, ops).failed.None?
    requires OverwritesFrom(ops, templates)
    requires op in ops
    ensures Holds(op, Apply(fs, ops).fs)
  {
    ApplyEstablishes(fs, ops, templates);
  }

  /** `OverwritesFrom`, checked step by step by value. */
  lemma OverwritesFromMembers(ops: seq<Op>, templates: map<Path, string>)
    requires forall op :: op in ops && op.Put? && op.policy == Overwrite ==>
      op.path in templates && templates[op.path] == op.content
    ensures OverwritesFrom(ops, templates)
  {
    forall i | 0 <= i < |ops| && ops[i].Put? && ops[i].policy == Overwrite
      ensures ops[i].path in templates && templates[ops[i].path] == ops[i].content
    {
      assert ops[i] in ops;
    }
  }

  /** `Overwrites`, refuted step by step by value. */
  lemma NotOverwritten(ops: seq<Op>, k: Path)
    requires forall op :: op in ops ==> !Rewrites(op, k)
    ensures !Overwrites(ops, k)
  {
    forall i | 0 <= i < |ops| ensures !Rewrites(ops[i], k) {
      assert ops[i] in ops;
    }
  }

  /** Running the same steps again after a run that did not raise leaves the
      files exactly as they were. */
  lemma Idempotent(fs: FileMap, ops: seq<Op>, templates: map<Path, string>)
    requires Apply(fs, ops).failed.None?
    requires OverwritesFrom(ops, templates)
    ensures Apply(Apply(fs, ops).fs, ops) == Applied(Apply(fs, ops).fs, None)
  {
    ApplyEstablishes(fs, ops, templates);
    ApplyNoop(Apply(fs, ops).fs, ops);
  }

  /** Running the same steps again, whether or not the first run raised,
      ends exactly as the first run did: the steps that succeeded have
      nothing left to do, and a step that raised left the files as they were,
      so it raises again on the same files. */
  lemma {:induction false} Rerun(fs: FileMap, ops: seq<Op>, templates: map<Path, string>)
    requires OverwritesFrom(ops, templates)
    ensures Apply(Apply(fs, ops).fs, ops) == Apply(fs, ops)
    decreases |ops|
  {
    if ops != [] {
      var s := Step(fs, ops[0]);
      var rest := ops[1..];
      if s.failed.None? {
        assert OverwritesFrom(rest, templates) by {
          forall i | 0 <= i < |rest| ensures rest[i] == ops[i + 1] {}
        }
        Rerun(s.fs, rest, templates);
        var r := Apply(s.fs, rest);
        StepEstablishes(ops[0], fs);
        assert OverwritesFrom([ops[0]], templates);
        ApplyKeeps(ops[0], s.fs, rest, templates);
        HoldsIsNoop(ops[0], r.fs);
      }
    }
  }

  /** A create-if-missing or overwrite step whose path no other step names and
      that was missing beforehand ends up holding exactly its content. */
  lemma Creates(fs: FileMap, ops: seq<Op>, i: int)
    requires 0 <= i < |ops| && ops[i].Put?
    requires ops[i].path !in fs
    requires ops[i].path !in Touched(ops[..i]) && ops[i].path !in Touched(ops[i + 1..])
    requires Apply(fs, ops).failed.None?
    ensures ops[i].path in Apply(fs, ops).fs
    ensures Apply(fs, ops).fs[ops[i].path] == File(ops[i].content, false)
  {
    var p, before, after := ops[i].path, ops[..i], ops[i + 1..];
    assert ops == before + ([ops[i]] + after);
    ApplyAppend(fs, before, [ops[i]] + after);
    var a := Apply(fs, before);
    ApplyFrame(fs, before, p);
    ApplyCons(a.fs, ops[i], after);
    var s := Step(a.fs, ops[i]);
    ApplyFrame(s.fs, after, p);
  }
}
