/** Discovering skills under their roots (internal/app/skills/discovery.go). Scanning a
    directory, reading and parsing a file, and validating a skill are functions of a
    `Disk`; what the pipeline does with their results is here. */
module Discovery {
  import opened Prelude
  import opened SkillRoots
  import opened SkillNames
  import Order

  datatype Scan = Scan(files: seq<string>, err: Option<string>)

  datatype Loaded = Parsed(skill: Skill) | Failed(err: string)

  datatype Report = Report(warnings: seq<string>, err: Option<string>)

  datatype Disk = Disk(scan: (SkillRoot, int) -> Scan, load: (string, SkillRoot) -> Loaded, validate: Skill -> Report)

  datatype Failure = Failure(path: string, err: string)

  datatype Warning = Warning(path: string, name: string, text: string)

  datatype Options = Options(roots: seq<SkillRoot>, disabled: seq<string>, maxFilesPerRoot: int)

  const DEFAULT_MAX_FILES_PER_ROOT := 1000

  datatype Sifted = Sifted(valid: seq<Skill>, errors: seq<Failure>, warnings: seq<Warning>, ignored: seq<Skill>)

  datatype Result = Result(active: seq<Skill>, shadowed: seq<Skill>, conflicts: seq<Conflict>,
                           warnings: seq<Warning>, ignored: seq<Skill>, errors: seq<Failure>)

  /** Loading stamps a skill with its file and its root's precedence, and validation rejects
      blank names. */
  ghost predicate Faithful(d: Disk) {
    && (forall p, r :: d.load(p, r).Parsed? ==> d.load(p, r).skill.path == p && d.load(p, r).skill.precedence == r.precedence)
    && (forall s :: d.validate(s).err.None? ==> s.name != "")
  }

  function Warned(path: string, name: string, texts: seq<string>): seq<Warning> {
    seq(|texts|, i requires 0 <= i < |texts| => Warning(path, name, texts[i]))
  }

  function SiftFile(d: Disk, disabled: seq<string>, root: SkillRoot, path: string, s: Sifted): Sifted {
    match d.load(path, root)
    case Failed(err) => s.(errors := s.errors + [Failure(path, err)])
    case Parsed(sk) =>
      var rep := d.validate(sk);
      var t := s.(warnings := s.warnings + Warned(path, sk.name, rep.warnings));
      if rep.err.Some? then t.(errors := t.errors + [Failure(path, rep.err.value)])
      else if sk.name in disabled then t.(ignored := t.ignored + [sk])
      else t.(valid := t.valid + [sk])
  }

  function SiftFiles(d: Disk, disabled: seq<string>, root: SkillRoot, files: seq<string>, s: Sifted): Sifted {
    if files == [] then s
    else SiftFile(d, disabled, root, files[|files| - 1], SiftFiles(d, disabled, root, files[..|files| - 1], s))
  }

  function Limit(max: int): int {
    if max == 0 then DEFAULT_MAX_FILES_PER_ROOT else max
  }

  function SiftRoot(d: Disk, o: Options, root: SkillRoot, s: Sifted): Sifted {
    var scan := d.scan(root, Limit(o.maxFilesPerRoot));
    var t := if scan.err.Some? then s.(errors := s.errors + [Failure(root.dir, scan.err.value)]) else s;
    SiftFiles(d, o.disabled, root, scan.files, t)
  }

  function SiftRoots(d: Disk, o: Options, roots: seq<SkillRoot>): Sifted {
    if roots == [] then Sifted([], [], [], [])
    else SiftRoot(d, o, roots[|roots| - 1], SiftRoots(d, o, roots[..|roots| - 1]))
  }

  // ---------- what lands where, file by file ----------

  /** What each scanned file of some roots contributes, in the order of the scan. */
  function Gather<T>(d: Disk, o: Options, roots: seq<SkillRoot>, pick: (SkillRoot, string) -> seq<T>): seq<T> {
    if roots == [] then []
    else
      var root := roots[|roots| - 1];
      Gather(d, o, roots[..|roots| - 1], pick) + GatherFiles(root, Scanned(d, o, root).files, pick)
  }

  function GatherFiles<T>(root: SkillRoot, files: seq<string>, pick: (SkillRoot, string) -> seq<T>): seq<T> {
    if files == [] then [] else GatherFiles(root, files[..|files| - 1], pick) + pick(root, files[|files| - 1])
  }

  /** The scan of a root: at most 1000 files unless the options say otherwise. */
  function Scanned(d: Disk, o: Options, root: SkillRoot): Scan {
    d.scan(root, if o.maxFilesPerRoot == 0 then 1000 else o.maxFilesPerRoot)
  }

  /** Why a file is not a skill: it cannot be loaded, or it is not valid. */
  function Fault(d: Disk, root: SkillRoot, path: string): Option<string> {
    if d.load(path, root).Failed? then Some(d.load(path, root).err) else d.validate(d.load(path, root).skill).err
  }

  function FaultOf(d: Disk): (SkillRoot, string) -> seq<Failure> {
    (root, path) => match Fault(d, root, path) case None => [] case Some(e) => [Failure(path, e)]
  }

  function SkillIf(d: Disk, o: Options, disabled: bool): (SkillRoot, string) -> seq<Skill> {
    (root, path) =>
      if Fault(d, root, path).None? && (d.load(path, root).skill.name in o.disabled) == disabled then [d.load(path, root).skill] else []
  }

  /** The warnings of a file that parses, valid or not. */
  function WarningsOf(d: Disk): (SkillRoot, string) -> seq<Warning> {
    (root, path) =>
      if d.load(path, root).Failed? then []
      else
        var sk := d.load(path, root).skill;
        var texts := d.validate(sk).warnings;
        seq(|texts|, i requires 0 <= i < |texts| => Warning(path, sk.name, texts[i]))
  }

  /** The failures of some roots: for each root its scan's, then its files'. */
  function Failures(d: Disk, o: Options, roots: seq<SkillRoot>): seq<Failure> {
    if roots == [] then []
    else
      var root := roots[|roots| - 1];
      var scan := Scanned(d, o, root);
      Failures(d, o, roots[..|roots| - 1])
      + (if scan.err.Some? then [Failure(root.dir, scan.err.value)] else [])
      + GatherFiles(root, scan.files, FaultOf(d))
  }

  lemma {:induction false} FilesSift(d: Disk, o: Options, root: SkillRoot, files: seq<string>, s: Sifted)
    ensures var t := SiftFiles(d, o.disabled, root, files, s);
            && t.valid == s.valid + GatherFiles(root, files, SkillIf(d, o, false))
            && t.ignored == s.ignored + GatherFiles(root, files, SkillIf(d, o, true))
            && t.errors == s.errors + GatherFiles(root, files, FaultOf(d))
            && t.warnings == s.warnings + GatherFiles(root, files, WarningsOf(d))
  {
    if files == [] {
      assert s.valid + [] == s.valid && s.ignored + [] == s.ignored && s.errors + [] == s.errors && s.warnings + [] == s.warnings;
    } else {
      var front, path := files[..|files| - 1], files[|files| - 1];
      FilesSift(d, o, root, front, s);
      FileSifts(d, o, root, path, SiftFiles(d, o.disabled, root, front, s));
      hide SiftFile, SkillIf, FaultOf, WarningsOf;
      Associate(s.valid, GatherFiles(root, front, SkillIf(d, o, false)), SkillIf(d, o, false)(root, path));
      Associate(s.ignored, GatherFiles(root, front, SkillIf(d, o, true)), SkillIf(d, o, true)(root, path));
      Associate(s.errors, GatherFiles(root, front, FaultOf(d)), FaultOf(d)(root, path));
      Associate(s.warnings, GatherFiles(root, front, WarningsOf(d)), WarningsOf(d)(root, path));
    }
  }

  lemma FileSifts(d: Disk, o: Options, root: SkillRoot, path: string, s: Sifted)
    ensures var t := SiftFile(d, o.disabled, root, path, s);
            && t.valid == s.valid + SkillIf(d, o, false)(root, path)
            && t.ignored == s.ignored + SkillIf(d, o, true)(root, path)
            && t.errors == s.errors + FaultOf(d)(root, path)
            && t.warnings == s.warnings + WarningsOf(d)(root, path)
  {
    assert s.valid + [] == s.valid && s.ignored + [] == s.ignored && s.errors + [] == s.errors && s.warnings + [] == s.warnings;
  }

  lemma {:induction false} RootsSift(d: Disk, o: Options, roots: seq<SkillRoot>)
    ensures var t := SiftRoots(d, o, roots);
            && t.valid == Gather(d, o, roots, SkillIf(d, o, false))
            && t.ignored == Gather(d, o, roots, SkillIf(d, o, true))
            && t.errors == Failures(d, o, roots)
            && t.warnings == Gather(d, o, roots, WarningsOf(d))
  {
    if roots != [] {
      var front, root := roots[..|roots| - 1], roots[|roots| - 1];
      RootsSift(d, o, front);
      hide SkillIf, FaultOf, WarningsOf, SiftFiles, GatherFiles;
      var s, scan := SiftRoots(d, o, front), Scanned(d, o, root);
      var t := if scan.err.Some? then s.(errors := s.errors + [Failure(root.dir, scan.err.value)]) else s;
      FilesSift(d, o, root, scan.files, t);
      assert s.errors + [] == s.errors;
    }
  }

  method Discover(d: Disk, o: Options) returns (res: Result)
    ensures var r := Resolved(Gather(d, o, o.roots, SkillIf(d, o, false)));
            && res.active == r.active && res.shadowed == r.shadowed && res.conflicts == r.conflicts
            && res.ignored == Gather(d, o, o.roots, SkillIf(d, o, true))
            && res.errors == Failures(d, o, o.roots)
            && res.warnings == Gather(d, o, o.roots, WarningsOf(d))
  {
    var maxFiles := Limit(o.maxFilesPerRoot);
    var disabled := set n | n in o.disabled;
    var s := Sifted([], [], [], []);
    for i := 0 to |o.roots|
      invariant s == SiftRoots(d, o, o.roots[..i])
    {
      assert o.roots[..i + 1][..i] == o.roots[..i];
      var root := o.roots[i];
      var scan := d.scan(root, maxFiles);
      ghost var before := s;
      if scan.err.Some? {
        s := s.(errors := s.errors + [Failure(root.dir, scan.err.value)]);
      }
      ghost var begun := s;
      for j := 0 to |scan.files|
        invariant s == SiftFiles(d, o.disabled, root, scan.files[..j], begun)
      {
        assert scan.files[..j + 1][..j] == scan.files[..j];
        var path := scan.files[j];
        var loaded := d.load(path, root);
        if loaded.Failed? {
          s := s.(errors := s.errors + [Failure(path, loaded.err)]);
          continue;
        }
        var sk := loaded.skill;
        var rep := d.validate(sk);
        s := s.(warnings := s.warnings + Warned(path, sk.name, rep.warnings));
        if rep.err.Some? {
          s := s.(errors := s.errors + [Failure(path, rep.err.value)]);
        } else if sk.name in disabled {
          s := s.(ignored := s.ignored + [sk]);
        } else {
          s := s.(valid := s.valid + [sk]);
        }
      }
      assert scan.files[..|scan.files|] == scan.files;
      assert s == SiftRoot(d, o, root, before);
    }
    assert o.roots[..|o.roots|] == o.roots;
    RootsSift(d, o, o.roots);
    hide Gather, Failures, SkillIf, FaultOf, WarningsOf;
    var r := Resolve(s.valid);
    res := Result(r.active, r.shadowed, r.conflicts, s.warnings, s.ignored, s.errors);
  }

  /** One scanned file of one root. */
  ghost predicate IsScanned(d: Disk, o: Options, root: SkillRoot, path: string) {
    root in o.roots && path in Scanned(d, o, root).files
  }

  lemma {:induction false} GatheredFiles<T>(root: SkillRoot, files: seq<string>, pick: (SkillRoot, string) -> seq<T>, x: T)
    ensures x in GatherFiles(root, files, pick) <==> exists path :: path in files && x in pick(root, path)
  {
    if files != [] {
      var front, last := files[..|files| - 1], files[|files| - 1];
      GatheredFiles(root, front, pick, x);
      assert files == front + [last];
      if x in pick(root, last) { assert last in files; }
    }
  }

  lemma {:induction false} Gathered<T>(d: Disk, o: Options, roots: seq<SkillRoot>, pick: (SkillRoot, string) -> seq<T>, x: T)
    ensures x in Gather(d, o, roots, pick) <==>
            exists root, path :: root in roots && path in Scanned(d, o, root).files && x in pick(root, path)
  {
    if roots != [] {
      var front, last := roots[..|roots| - 1], roots[|roots| - 1];
      Gathered(d, o, front, pick, x);
      GatheredFiles(last, Scanned(d, o, last).files, pick, x);
      hide GatherFiles;
      assert roots == front + [last];
      if path :| path in Scanned(d, o, last).files && x in pick(last, path) { assert last in roots; }
    }
  }

  lemma {:induction false} FailuresAre(d: Disk, o: Options, roots: seq<SkillRoot>, f: Failure)
    ensures f in Failures(d, o, roots) <==>
            || (exists root :: root in roots && Scanned(d, o, root).err.Some? && f == Failure(root.dir, Scanned(d, o, root).err.value))
            || (exists root, path :: root in roots && path in Scanned(d, o, root).files && f in FaultOf(d)(root, path))
  {
    if roots != [] {
      var front, last := roots[..|roots| - 1], roots[|roots| - 1];
      FailuresAre(d, o, front, f);
      GatheredFiles(last, Scanned(d, o, last).files, FaultOf(d), f);
      hide GatherFiles, FaultOf;
      assert roots == front + [last];
      if path :| path in Scanned(d, o, last).files && f in FaultOf(d)(last, path) { assert last in roots; }
      if Scanned(d, o, last).err.Some? { assert last in roots; }
    }
  }

  /** A failure is reported exactly for a root whose scan failed, and for a scanned file that
      cannot be loaded or is not valid, with that reason. */
  lemma ErrorsAreExact(d: Disk, o: Options, f: Failure)
    ensures f in Failures(d, o, o.roots) <==>
            || (exists root :: root in o.roots && Scanned(d, o, root).err == Some(f.err) && f.path == root.dir)
            || (exists root :: IsScanned(d, o, root, f.path) &&
                  if d.load(f.path, root).Failed? then d.load(f.path, root).err == f.err
                  else d.validate(d.load(f.path, root).skill).err == Some(f.err))
  {
    FailuresAre(d, o, o.roots, f);
    hide Failures;
    if root :| IsScanned(d, o, root, f.path) && f in FaultOf(d)(root, f.path) {
      assert IsScanned(d, o, root, f.path);
    }
    if root, path :| root in o.roots && path in Scanned(d, o, root).files && f in FaultOf(d)(root, path) {
      assert path == f.path && IsScanned(d, o, root, path);
    }
    if root :| IsScanned(d, o, root, f.path) && (if d.load(f.path, root).Failed? then d.load(f.path, root).err == f.err
                  else d.validate(d.load(f.path, root).skill).err == Some(f.err)) {
      assert f in FaultOf(d)(root, f.path);
    }
  }

  /** A skill is passed on to resolution, or ignored, exactly if it is loaded from a scanned
      file and valid; which of the two, the list of disabled names decides. */
  lemma SkillsAreExact(d: Disk, o: Options, sk: Skill, ignored: bool)
    ensures sk in Gather(d, o, o.roots, SkillIf(d, o, ignored)) <==>
            && (ignored <==> sk.name in o.disabled)
            && exists root, path :: IsScanned(d, o, root, path) && d.load(path, root) == Parsed(sk) && d.validate(sk).err.None?
  {
    Gathered(d, o, o.roots, SkillIf(d, o, ignored), sk);
    hide Gather;
    if root, path :| root in o.roots && path in Scanned(d, o, root).files && sk in SkillIf(d, o, ignored)(root, path) {
      assert IsScanned(d, o, root, path) && d.load(path, root) == Parsed(sk);
    }
    if root, path :| IsScanned(d, o, root, path) && d.load(path, root) == Parsed(sk) && d.validate(sk).err.None? {
      assert (ignored <==> sk.name in o.disabled) ==> sk in SkillIf(d, o, ignored)(root, path);
    }
  }

  /** A warning is reported exactly if validating a loaded skill gives it, valid or not. */
  lemma WarningsAreExact(d: Disk, o: Options, x: Warning)
    ensures x in Gather(d, o, o.roots, WarningsOf(d)) <==>
            exists root :: IsScanned(d, o, root, x.path) && d.load(x.path, root).Parsed?
                           && x.name == d.load(x.path, root).skill.name && x.text in d.validate(d.load(x.path, root).skill).warnings
  {
    Gathered(d, o, o.roots, WarningsOf(d), x);
    hide Gather;
    if root, path :| root in o.roots && path in Scanned(d, o, root).files && x in WarningsOf(d)(root, path) {
      assert path == x.path && IsScanned(d, o, root, path);
    }
    if root :| IsScanned(d, o, root, x.path) && d.load(x.path, root).Parsed?
               && x.name == d.load(x.path, root).skill.name && x.text in d.validate(d.load(x.path, root).skill).warnings {
      var texts := d.validate(d.load(x.path, root).skill).warnings;
      var i :| 0 <= i < |texts| && texts[i] == x.text;
      assert WarningsOf(d)(root, x.path)[i] == x;
    }
  }

  // ---------- accounting ----------

  /** Which file a path came from: a scanned file or a root that could not be read in full. */
  function Visits(d: Disk, o: Options, roots: seq<SkillRoot>, p: string): nat {
    if roots == [] then 0
    else
      var root := roots[|roots| - 1];
      var scan := d.scan(root, Limit(o.maxFilesPerRoot));
      Visits(d, o, roots[..|roots| - 1], p) + Count(scan.files, p) + if scan.err.Some? && root.dir == p then 1 else 0
  }

  function Count(ps: seq<string>, p: string): nat {
    if ps == [] then 0 else Count(ps[..|ps| - 1], p) + if ps[|ps| - 1] == p then 1 else 0
  }

  function SkillsAt(skills: seq<Skill>, p: string): nat {
    if skills == [] then 0 else SkillsAt(skills[..|skills| - 1], p) + if skills[|skills| - 1].path == p then 1 else 0
  }

  function FailuresAt(errors: seq<Failure>, p: string): nat {
    if errors == [] then 0 else FailuresAt(errors[..|errors| - 1], p) + if errors[|errors| - 1].path == p then 1 else 0
  }

  /** How often a path is accounted for before resolution. */
  function Booked(s: Sifted, p: string): nat {
    SkillsAt(s.valid, p) + SkillsAt(s.ignored, p) + FailuresAt(s.errors, p)
  }

  lemma Snocs(skills: seq<Skill>, sk: Skill, errors: seq<Failure>, f: Failure, p: string)
    ensures SkillsAt(skills + [sk], p) == SkillsAt(skills, p) + if sk.path == p then 1 else 0
    ensures FailuresAt(errors + [f], p) == FailuresAt(errors, p) + if f.path == p then 1 else 0
  {
    assert (skills + [sk])[..|skills|] == skills && (errors + [f])[..|errors|] == errors;
  }

  lemma FileIsBooked(d: Disk, disabled: seq<string>, root: SkillRoot, path: string, s: Sifted, p: string)
    requires Faithful(d)
    ensures Booked(SiftFile(d, disabled, root, path, s), p) == Booked(s, p) + if path == p then 1 else 0
  {
    hide SkillsAt, FailuresAt;
    match d.load(path, root)
    case Failed(err) => Snocs(s.valid, Skill("", "", "", 0, ""), s.errors, Failure(path, err), p);
    case Parsed(sk) =>
      var err := d.validate(sk).err;
      Snocs(s.valid, sk, s.errors, Failure(path, if err.Some? then err.value else ""), p);
      Snocs(s.ignored, sk, s.errors, Failure(path, ""), p);
  }

  lemma {:induction false} FilesAreBooked(d: Disk, disabled: seq<string>, root: SkillRoot, files: seq<string>, s: Sifted, p: string)
    requires Faithful(d)
    ensures Booked(SiftFiles(d, disabled, root, files, s), p) == Booked(s, p) + Count(files, p)
  {
    hide Booked, SiftFile;
    if files != [] {
      FilesAreBooked(d, disabled, root, files[..|files| - 1], s, p);
      FileIsBooked(d, disabled, root, files[|files| - 1], SiftFiles(d, disabled, root, files[..|files| - 1], s), p);
    }
  }

  lemma {:induction false} RootsAreBooked(d: Disk, o: Options, roots: seq<SkillRoot>, p: string)
    requires Faithful(d)
    ensures Booked(SiftRoots(d, o, roots), p) == Visits(d, o, roots, p)
  {
    if roots != [] {
      var root, s := roots[|roots| - 1], SiftRoots(d, o, roots[..|roots| - 1]);
      var scan := d.scan(root, Limit(o.maxFilesPerRoot));
      RootsAreBooked(d, o, roots[..|roots| - 1], p);
      var t := if scan.err.Some? then s.(errors := s.errors + [Failure(root.dir, scan.err.value)]) else s;
      if scan.err.Some? {
        Snocs([], Skill("", "", "", 0, ""), s.errors, Failure(root.dir, scan.err.value), p);
      }
      FilesAreBooked(d, o.disabled, root, scan.files, t, p);
    }
  }

  /** Counting skills by path is counting them by value. */
  lemma {:induction false} SameSkillsSamePaths(a: seq<Skill>, b: seq<Skill>, p: string)
    requires multiset(a) == multiset(b)
    ensures SkillsAt(a, p) == SkillsAt(b, p)
    decreases |a|
  {
    hide SkillsAt, Without;
    if a == [] {
      NoneLeft(b);
    } else {
      var j := MatchLast(a, b);
      PathDrop(b, j, p);
      PathDrop(a, |a| - 1, p);
      SameSkillsSamePaths(Without(a, |a| - 1), Without(b, j), p);
    }
  }

  lemma PathDrop(skills: seq<Skill>, i: nat, p: string)
    requires i < |skills|
    ensures SkillsAt(skills, p) == SkillsAt(Without(skills, i), p) + if skills[i].path == p then 1 else 0
  {
    var before, x, after := skills[..i], skills[i], skills[i + 1..];
    assert SkillsAt([x], p) == if x.path == p then 1 else 0;
    hide SkillsAt;
    assert skills == before + [x] + after;
    PathsConcat(before + [x], after, p);
    PathsConcat(before, [x], p);
    PathsConcat(before, after, p);
  }

  lemma {:induction false} PathsConcat(a: seq<Skill>, b: seq<Skill>, p: string)
    ensures SkillsAt(a + b, p) == SkillsAt(a, p) + SkillsAt(b, p)
  {
    if b == [] {
      assert a + b == a;
    } else {
      assert (a + b)[..|a + b| - 1] == a + b[..|b| - 1];
      PathsConcat(a, b[..|b| - 1], p);
    }
  }

  lemma {:induction false} ValidAreNamed(d: Disk, disabled: seq<string>, root: SkillRoot, files: seq<string>, s: Sifted)
    requires Faithful(d) && forall sk :: sk in s.valid ==> sk.name != ""
    ensures forall sk :: sk in SiftFiles(d, disabled, root, files, s).valid ==> sk.name != ""
  {
    if files != [] {
      ValidAreNamed(d, disabled, root, files[..|files| - 1], s);
    }
  }

  lemma {:induction false} AllValidAreNamed(d: Disk, o: Options, roots: seq<SkillRoot>)
    requires Faithful(d)
    ensures forall sk :: sk in SiftRoots(d, o, roots).valid ==> sk.name != ""
  {
    if roots != [] {
      AllValidAreNamed(d, o, roots[..|roots| - 1]);
      var root, s := roots[|roots| - 1], SiftRoots(d, o, roots[..|roots| - 1]);
      var scan := d.scan(root, Limit(o.maxFilesPerRoot));
      ValidAreNamed(d, o.disabled, root, scan.files,
                    if scan.err.Some? then s.(errors := s.errors + [Failure(root.dir, scan.err.value)]) else s);
    }
  }

  /** Every scanned file, and every root that failed, lands in exactly one place: active,
      shadowed, an unresolvable conflict, ignored or errors. */
  lemma EveryFileIsAccountedFor(d: Disk, o: Options, p: string)
    requires Faithful(d)
    ensures var r := Resolved(Gather(d, o, o.roots, SkillIf(d, o, false)));
            Visits(d, o, o.roots, p) ==
              SkillsAt(r.active, p) + SkillsAt(r.shadowed, p) + SkillsAt(Stuck(r.conflicts), p)
              + SkillsAt(Gather(d, o, o.roots, SkillIf(d, o, true)), p) + FailuresAt(Failures(d, o, o.roots), p)
  {
    RootsSift(d, o, o.roots);
    hide Gather, Failures, SkillIf;
    var s := SiftRoots(d, o, o.roots);
    var r := Resolved(s.valid);
    RootsAreBooked(d, o, o.roots, p);
    AllValidAreNamed(d, o, o.roots);
    var placed := r.active + r.shadowed + Stuck(r.conflicts);
    hide SiftRoots, Resolved, SkillsAt, Stuck;
    forall x ensures multiset(placed)[x] == multiset(s.valid)[x] {
      EverySkillIsPlacedOnce(s.valid, x);
      TimesConcat(r.active + r.shadowed, Stuck(r.conflicts), x);
      TimesConcat(r.active, r.shadowed, x);
      if x.name == "" { assert x !in s.valid; }
    }
    SameSkillsSamePaths(placed, s.valid, p);
    PathsConcat(r.active + r.shadowed, Stuck(r.conflicts), p);
    PathsConcat(r.active, r.shadowed, p);
  }

  // ---------- unresolvable names ----------

  /** How many valid skills of a name one root contributes. */
  function Homonyms(skills: seq<Skill>, name: string, precedence: int): nat {
    Peers(Group(skills, name), precedence)
  }

  ghost predicate InjectiveRoots(roots: seq<SkillRoot>) {
    forall i, j :: 0 <= i < j < |roots| ==> roots[i].precedence != roots[j].precedence
  }

  /** How many files of a root pass with this name. */
  function Bearers(d: Disk, disabled: seq<string>, root: SkillRoot, files: seq<string>, name: string): nat {
    if files == [] then 0
    else
      Bearers(d, disabled, root, files[..|files| - 1], name) +
        match d.load(files[|files| - 1], root)
        case Failed(_) => 0
        case Parsed(sk) => if d.validate(sk).err.None? && sk.name !in disabled && sk.name == name then 1 else 0
  }

  lemma HomonymsSnoc(skills: seq<Skill>, sk: Skill, name: string, p: int)
    ensures Homonyms(skills + [sk], name, p) == Homonyms(skills, name, p) + if sk.name == name && sk.precedence == p then 1 else 0
  {
    assert (skills + [sk])[..|skills|] == skills;
    var g := Group(skills, name);
    assert (g + [sk])[..|g|] == g;
    assert g + [] == g;
  }

  lemma {:induction false} FilesAddBearers(d: Disk, disabled: seq<string>, root: SkillRoot, files: seq<string>, s: Sifted, name: string, p: int)
    requires Faithful(d)
    ensures Homonyms(SiftFiles(d, disabled, root, files, s).valid, name, p) ==
            Homonyms(s.valid, name, p) + if root.precedence == p then Bearers(d, disabled, root, files, name) else 0
  {
    hide Homonyms;
    if files != [] {
      var front, last := files[..|files| - 1], files[|files| - 1];
      FilesAddBearers(d, disabled, root, front, s, name, p);
      var t := SiftFiles(d, disabled, root, front, s);
      if d.load(last, root).Parsed? {
        HomonymsSnoc(t.valid, d.load(last, root).skill, name, p);
      }
    }
  }

  lemma {:induction false} RootsAddBearers(d: Disk, o: Options, roots: seq<SkillRoot>, name: string, p: int)
    requires Faithful(d) && InjectiveRoots(roots)
    ensures forall i :: 0 <= i < |roots| && roots[i].precedence == p ==>
              Homonyms(SiftRoots(d, o, roots).valid, name, p) ==
              Bearers(d, o.disabled, roots[i], d.scan(roots[i], Limit(o.maxFilesPerRoot)).files, name)
    ensures (forall i :: 0 <= i < |roots| ==> roots[i].precedence != p) ==> Homonyms(SiftRoots(d, o, roots).valid, name, p) == 0
  {
    if roots != [] {
      var front, root := roots[..|roots| - 1], roots[|roots| - 1];
      RootsAddBearers(d, o, front, name, p);
      var s, scan := SiftRoots(d, o, front), d.scan(root, Limit(o.maxFilesPerRoot));
      FilesAddBearers(d, o.disabled, root, scan.files,
                      if scan.err.Some? then s.(errors := s.errors + [Failure(root.dir, scan.err.value)]) else s, name, p);
      hide Homonyms, Bearers, SiftFiles;
      forall i | 0 <= i < |roots| && roots[i].precedence == p
        ensures Homonyms(SiftRoots(d, o, roots).valid, name, p) ==
                Bearers(d, o.disabled, roots[i], d.scan(roots[i], Limit(o.maxFilesPerRoot)).files, name)
      {
        if i < |front| { assert front[i] == roots[i]; }
      }
    }
  }

  /** With distinct root precedences, as AssignPrecedence gives them, a name is tied exactly
      when two or more passing files of the one root that ranks highest for it carry it. */
  lemma TiedOnlyWithinARoot(d: Disk, o: Options, name: string) returns (i: nat)
    requires Faithful(d) && InjectiveRoots(o.roots)
    requires Group(Gather(d, o, o.roots, SkillIf(d, o, false)), name) != []
    ensures var group := Group(Gather(d, o, o.roots, SkillIf(d, o, false)), name);
            && i < |o.roots| && o.roots[i].precedence == group[Best(group)].precedence
            && (Tied(group) <==> Bearers(d, o.disabled, o.roots[i], d.scan(o.roots[i], Limit(o.maxFilesPerRoot)).files, name) >= 2)
  {
    RootsSift(d, o, o.roots);
    hide Gather, Failures, SkillIf;
    var group := Group(SiftRoots(d, o, o.roots).valid, name);
    var p := group[Best(group)].precedence;
    RootsAddBearers(d, o, o.roots, name, p);
    NoPeers(group, p);
    hide Bearers, SiftRoots, Peers;
    i :| 0 <= i < |o.roots| && o.roots[i].precedence == p;
  }

  /** Roots ranked by AssignPrecedence have distinct precedences. */
  lemma AssignedRootsAreInjective(specs: seq<RootSpec>, roots: seq<SkillRoot>)
    requires |roots| == |Kept(specs)| && forall i :: 0 <= i < |roots| ==> roots[i] == Ranked(Kept(specs)[i], i)
    ensures InjectiveRoots(roots)
    ensures forall i, j :: 0 <= i < j < |roots| ==> roots[i].dir != roots[j].dir
  {
    RankingIsInjective(specs);
  }
}
