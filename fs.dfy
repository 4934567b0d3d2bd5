/** The part of the operating system the generator touches: POSIX path
    arithmetic (`os.path.join`, `os.path.dirname`), a file map, the set of
    directories, the working directory, and a log of the external commands
    it starts and the files it writes. */
module Fs {
  import opened Base
  import opened Json

  type Path = string

  /** What the outside world sees: a command started, or a file written. */
  datatype Event = Ran(argv: seq<string>) | Wrote(path: Path)

  /** `json.load` and `json.dump`: parsing may fail, printing may not. */
  datatype Codec = Codec(load: string -> Option<Value>, dump: Value -> string)

  datatype State = State(files: map<Path, string>, dirs: set<Path>, cwd: Path, log: seq<Event>)

  // ---------------------------------------------------------------------
  // Paths

  /** `os.path.join(a, b)` on POSIX: an absolute `b` discards `a`. */
  function Join(a: Path, b: Path): (p: Path)
    ensures StartsWith(b, "/") ==> p == b
    ensures StartsWith(a, "/") ==> StartsWith(p, "/")
  {
    if StartsWith(b, "/") then b
    else if a == [] || EndsWith(a, "/") then a + b
    else a + "/" + b
  }

  /** A relative `b` ends the joined path, after all of `a`. */
  lemma JoinRelative(a: Path, b: Path)
    requires !StartsWith(b, "/")
    ensures EndsWith(Join(a, b), b) && |Join(a, b)| >= |a| + |b|
  {
    var p := Join(a, b);
    assert p[|p| - |b|..] == b;
  }

  /** Under one directory, distinct relative names give distinct paths. */
  lemma JoinInjective(a: Path, b1: Path, b2: Path)
    requires b1 != [] && b1[0] != '/' && b2 != [] && b2[0] != '/' && b1 != b2
    ensures Join(a, b1) != Join(a, b2)
  {
    assert !StartsWith(b1, "/") by { assert b1[..1] == [b1[0]]; }
    assert !StartsWith(b2, "/") by { assert b2[..1] == [b2[0]]; }
    var pre := if a == [] || EndsWith(a, "/") then a else a + "/";
    assert Join(a, b1) == pre + b1 && Join(a, b2) == pre + b2;
    assert (pre + b1)[|pre|..] == b1 && (pre + b2)[|pre|..] == b2;
  }

  /** Two non-empty relative parts, the first without a trailing slash,
      are joined with one slash between them. */
  lemma JoinInsertsSlash(a: Path, b: Path)
    requires a != [] && a[|a| - 1] != '/' && b != [] && b[0] != '/'
    ensures Join(a, b) == a + "/" + b
  {
    assert !StartsWith(b, "/") by { assert b[..1] == [b[0]]; }
    assert !EndsWith(a, "/") by { assert a[|a| - 1..] == [a[|a| - 1]]; }
  }

  /** Index just after the last '/' of `p`, 0 when there is none. */
  function SlashEnd(p: Path): (i: nat)
    ensures i <= |p|
    ensures i > 0 ==> p[i - 1] == '/'
    ensures forall k :: i <= k < |p| ==> p[k] != '/'
  {
    if p == [] then 0 else if p[|p| - 1] == '/' then |p| else SlashEnd(p[..|p| - 1])
  }

  function StripSlashes(h: Path): (r: Path)
    ensures |r| <= |h| && r == h[..|r|]
    ensures r == [] || r[|r| - 1] != '/'
  {
    if h != [] && h[|h| - 1] == '/' then StripSlashes(h[..|h| - 1]) else h
  }

  predicate AllSlashes(h: Path) {
    forall k :: 0 <= k < |h| ==> h[k] == '/'
  }

  /** `os.path.dirname(p)` on POSIX: everything up to the last '/', with the
      trailing slashes removed unless the head is made of slashes only. */
  function Dirname(p: Path): (d: Path)
    ensures |d| <= |p|
  {
    var head := p[..SlashEnd(p)];
    if head != [] && !AllSlashes(head) then StripSlashes(head) else head
  }

  /** A name without '/' joined to a directory is a child of it: `dirname`
      gives the directory back. */
  lemma DirnameOfJoin(d: Path, name: Path)
    requires d != [] && d[|d| - 1] != '/'
    requires forall k :: 0 <= k < |name| ==> name[k] != '/'
    ensures Dirname(Join(d, name)) == d
  {
    var p := Join(d, name);
    assert !StartsWith(name, "/") by {
      if |name| > 0 { assert name[..1][0] == name[0]; }
    }
    assert p == d + "/" + name;
    assert p[|d|] == '/';
    assert SlashEnd(p) == |d| + 1 by { SlashEndAt(p, |d|); }
    var head := p[..|d| + 1];
    assert head == d + "/";
    assert head[|d| - 1] != '/';
    assert !AllSlashes(head);
    assert head[..|head| - 1] == d;
    assert StripSlashes(d) == d;
    assert StripSlashes(head) == d;
  }

  lemma SlashEndAt(p: Path, i: nat)
    requires i < |p| && p[i] == '/'
    requires forall k :: i < k < |p| ==> p[k] != '/'
    ensures SlashEnd(p) == i + 1
  {
  }

  /** A name without '/' has no directory part. */
  lemma DirnameOfBareName(name: Path)
    requires forall k :: 0 <= k < |name| ==> name[k] != '/'
    ensures Dirname(name) == []
  {
  }

  /** The directories `os.makedirs` creates for `a`: `a` and its parents. */
  function Ancestors(a: Path): (s: set<Path>)
    ensures a in s
    decreases |a|
  {
    var d := Dirname(a);
    if d != [] && |d| < |a| then {a} + Ancestors(d) else {a}
  }

  // ---------------------------------------------------------------------
  // Operations on the state

  /** A path as the process sees it: relative to the working directory. */
  function Resolve(st: State, p: Path): Path {
    Join(st.cwd, p)
  }

  /** `os.path.exists(p)` for a regular file. */
  predicate IsFile(st: State, p: Path) {
    Resolve(st, p) in st.files
  }

  /** No path is both a file and a directory. */
  predicate Valid(st: State) {
    forall p :: p in st.files ==> p !in st.dirs
  }

  /** Writing and creating directories keep the state valid. */
  lemma WriteKeepsValid(st: State, p: Path, text: string)
    requires Valid(st)
    ensures Valid(WriteFn(st, p, text).0)
  {
  }

  lemma MakeDirsKeepsValid(st: State, p: Path)
    requires Valid(st)
    ensures Valid(MakeDirsFn(st, p).0)
  {
  }

  /** `os.path.exists(p)`: a file or a directory. */
  predicate Exists(st: State, p: Path) {
    Resolve(st, p) in st.files || Resolve(st, p) in st.dirs
  }

  /** `open(p).read()`. */
  function ReadFn(st: State, p: Path): (r: Result<string>)
    ensures r.Ok? <==> IsFile(st, p)
    ensures r.Ok? ==> r.value == st.files[Resolve(st, p)]
  {
    var a := Resolve(st, p);
    if a in st.files then Ok(st.files[a])
    else if a in st.dirs then Err(IsADirectory(a))
    else Err(FileNotFound(a))
  }

  /** `json.load(open(p))`. */
  function ReadJsonFn(st: State, c: Codec, p: Path): (r: Result<Value>)
    ensures r.Ok? ==> IsFile(st, p) && c.load(st.files[Resolve(st, p)]) == Some(r.value)
    ensures IsFile(st, p) && c.load(st.files[Resolve(st, p)]).None? ==> r.Err? && r.error.JsonDecodeError?
  {
    match ReadFn(st, p)
    case Err(e) => Err(e)
    case Ok(t) =>
      match c.load(t)
      case None => Err(JsonDecodeError(Resolve(st, p)))
      case Some(v) => Ok(v)
  }

  /** `open(p, 'w').write(text)`: the file now holds exactly `text`. */
  function WriteFn(st: State, p: Path, text: string): (r: (State, Outcome))
    ensures r.1.Pass? <==> Resolve(st, p) !in st.dirs
    ensures r.1.Pass? ==> r.0 == st.(files := st.files[Resolve(st, p) := text], log := st.log + [Wrote(Resolve(st, p))])
    ensures r.1.Fail? ==> r.0 == st
  {
    var a := Resolve(st, p);
    if a in st.dirs then (st, Fail(IsADirectory(a)))
    else (st.(files := st.files[a := text], log := st.log + [Wrote(a)]), Pass)
  }

  /** `json.dump(v, open(p, 'w'))`. */
  function WriteJsonFn(st: State, c: Codec, p: Path, v: Value): (State, Outcome) {
    WriteFn(st, p, c.dump(v))
  }

  /** `subprocess.run(argv)`: the command is recorded; what it does to the
      disk is outside the model. */
  function RunFn(st: State, argv: seq<string>): (r: State)
    ensures r.log == st.log + [Ran(argv)]
    ensures r.files == st.files && r.dirs == st.dirs && r.cwd == st.cwd
  {
    st.(log := st.log + [Ran(argv)])
  }

  /** The events of running `cmds` one after another. */
  function Runs(cmds: seq<seq<string>>): (es: seq<Event>)
    ensures |es| == |cmds|
    ensures forall i :: 0 <= i < |cmds| ==> es[i] == Ran(cmds[i])
  {
    if cmds == [] then [] else [Ran(cmds[0])] + Runs(cmds[1..])
  }

  lemma {:induction false} RunsAppend(a: seq<seq<string>>, b: seq<seq<string>>)
    ensures Runs(a + b) == Runs(a) + Runs(b)
  {
    var l, r := Runs(a + b), Runs(a) + Runs(b);
    assert |l| == |r|;
    forall i | 0 <= i < |l| ensures l[i] == r[i] {
      if i < |a| { assert (a + b)[i] == a[i]; } else { assert (a + b)[i] == b[i - |a|]; }
    }
  }

  /** Several commands run in order. */
  function RunAllFn(st: State, cmds: seq<seq<string>>): State {
    st.(log := st.log + Runs(cmds))
  }

  /** Running `a` and then `b` is running `a + b`; one command is a
      one-element run. */
  lemma RunAllAppend(st: State, a: seq<seq<string>>, b: seq<seq<string>>)
    ensures RunAllFn(RunAllFn(st, a), b) == RunAllFn(st, a + b)
  {
    RunsAppend(a, b);
    var ra, rb := Runs(a), Runs(b);
    AppendAssoc(st.log, ra, rb);
  }

  lemma RunIsRunAll(st: State, cmd: seq<string>)
    ensures RunFn(st, cmd) == RunAllFn(st, [cmd])
  {
    assert Runs([cmd]) == [Ran(cmd)];
  }

  /** `os.chdir(p)`; ".." is the parent of the working directory. */
  function ChDirFn(st: State, p: Path): (r: State)
    ensures r.files == st.files && r.dirs == st.dirs && r.log == st.log
    ensures r.cwd == if p == ".." then Dirname(st.cwd) else Resolve(st, p)
  {
    st.(cwd := if p == ".." then Dirname(st.cwd) else Resolve(st, p))
  }

  /** An absolute directory is reached from anywhere. */
  lemma ChDirAbsolute(st: State, dir: Path)
    requires StartsWith(dir, "/")
    ensures ChDirFn(st, dir).cwd == dir
  {
    assert dir[0] == '/';
    assert ".."[0] == '.';
  }

  /** `os.makedirs(p, exist_ok=True)`: the empty path raises
      FileNotFoundError, a file in the way raises; otherwise `p` and every
      parent exist as directories afterwards. */
  function MakeDirsFn(st: State, p: Path): (r: (State, Outcome))
    ensures p == [] ==> r == (st, Fail(FileNotFound([])))
    ensures r.1.Pass? ==> r.0.dirs == st.dirs + Ancestors(Resolve(st, p))
    ensures r.1.Pass? <==> p != [] && forall q :: q in Ancestors(Resolve(st, p)) ==> q !in st.files
    ensures r.0.files == st.files && r.0.cwd == st.cwd && r.0.log == st.log
  {
    if p == [] then (st, Fail(FileNotFound([])))
    else
      var a := Resolve(st, p);
      if a in st.files then (st, Fail(FileExists(a)))
      else if exists q :: q in Ancestors(a) && q in st.files then (st, Fail(NotADirectory(a)))
      else (st.(dirs := st.dirs + Ancestors(a)), Pass)
  }

  /** Creating directories twice is the same as creating them once. */
  lemma MakeDirsIdempotent(st: State, p: Path)
    requires MakeDirsFn(st, p).1.Pass?
    ensures MakeDirsFn(MakeDirsFn(st, p).0, p) == MakeDirsFn(st, p)
  {
    var st1 := MakeDirsFn(st, p).0;
    assert Resolve(st1, p) == Resolve(st, p);
    assert st1.dirs + Ancestors(Resolve(st, p)) == st1.dirs;
  }

  /** The mutable counterpart of State: one process's view of the disk. */
  class Host {
    var files: map<Path, string>
    var dirs: set<Path>
    var cwd: Path
    var log: seq<Event>

    function Snap(): State
      reads this
    {
      State(files, dirs, cwd, log)
    }

    constructor (s: State)
      ensures Snap() == s
    {
      files, dirs, cwd, log := s.files, s.dirs, s.cwd, s.log;
    }

    method Read(p: Path) returns (r: Result<string>)
      ensures r == ReadFn(Snap(), p)
    {
      var a := Join(cwd, p);
      if a in files {
        r := Ok(files[a]);
      } else if a in dirs {
        r := Err(IsADirectory(a));
      } else {
        r := Err(FileNotFound(a));
      }
    }

    method ReadJson(c: Codec, p: Path) returns (r: Result<Value>)
      ensures r == ReadJsonFn(Snap(), c, p)
    {
      var t := Read(p);
      if t.Err? {
        r := Err(t.error);
      } else {
        var v := c.load(t.value);
        r := if v.Some? then Ok(v.value) else Err(JsonDecodeError(Join(cwd, p)));
      }
    }

    method Write(p: Path, text: string) returns (o: Outcome)
      modifies this
      ensures (Snap(), o) == WriteFn(old(Snap()), p, text)
    {
      var a := Join(cwd, p);
      if a in dirs {
        o := Fail(IsADirectory(a));
      } else {
        files := files[a := text];
        log := log + [Wrote(a)];
        o := Pass;
      }
    }

    method WriteJson(c: Codec, p: Path, v: Value) returns (o: Outcome)
      modifies this
      ensures (Snap(), o) == WriteJsonFn(old(Snap()), c, p, v)
    {
      o := Write(p, c.dump(v));
    }

    method Run(argv: seq<string>)
      modifies this
      ensures Snap() == RunFn(old(Snap()), argv)
    {
      log := log + [Ran(argv)];
    }

    /** Commands run one after another, as a run of `subprocess.run` calls. */
    method RunCommands(cmds: seq<seq<string>>)
      modifies this
      ensures Snap() == RunAllFn(old(Snap()), cmds)
    {
      ghost var st0 := Snap();
      var i := 0;
      while i < |cmds|
        invariant 0 <= i <= |cmds|
        invariant Snap() == RunAllFn(st0, cmds[..i])
      {
        ghost var before := Snap();
        Run(cmds[i]);
        RunIsRunAll(before, cmds[i]);
        RunAllAppend(st0, cmds[..i], [cmds[i]]);
        assert cmds[..i + 1] == cmds[..i] + [cmds[i]];
        i := i + 1;
      }
      assert cmds[..i] == cmds;
    }

    method ChDir(p: Path)
      modifies this
      ensures Snap() == ChDirFn(old(Snap()), p)
    {
      cwd := if p == ".." then Dirname(cwd) else Join(cwd, p);
    }

    method MakeDirs(p: Path) returns (o: Outcome)
      modifies this
      ensures (Snap(), o) == MakeDirsFn(old(Snap()), p)
    {
      if p == [] {
        o := Fail(FileNotFound([]));
      } else {
        var a := Join(cwd, p);
        var chain := Ancestors(a);
        if a in files {
          o := Fail(FileExists(a));
        } else if exists q :: q in chain && q in files {
          o := Fail(NotADirectory(a));
        } else {
          dirs := dirs + chain;
          o := Pass;
        }
      }
    }
  }
}
