/**
 The import-boundary check: modules import core, core never imports modules.  The
 checker judges one import at a time; what it is for is a statement about import
 paths of any length.  Paths are lists of their segments.
 */
module ImportBoundaries {
  import opened Wrappers

  type Path = seq<string>

  /** A source file and the specifiers its imports name. */
  datatype Source = Source(path: Path, specifiers: seq<Path>)

  datatype Entry = File(name: string, specifiers: seq<Path>) | Dir(name: string, entries: seq<Entry>)

  // ── walk ──────────────────────────────────────────────────────────

  predicate EndsWith(s: string, suffix: string) {
    |suffix| <= |s| && s[|s| - |suffix|..] == suffix
  }

  predicate IsSource(name: string) { EndsWith(name, ".ts") && !EndsWith(name, ".d.ts") }

  function SourcesOf(dir: Path, e: Entry): seq<Source>
    decreases e
  {
    match e
    case File(name, specifiers) => if IsSource(name) then [Source(dir + [name], specifiers)] else []
    case Dir(name, entries) => SourcesIn(dir + [name], entries)
  }

  function SourcesIn(dir: Path, entries: seq<Entry>): seq<Source>
    decreases entries
  {
    if entries == [] then [] else SourcesOf(dir, entries[0]) + SourcesIn(dir, entries[1..])
  }

  /** `rel` is the way down from these entries to a source file. */
  ghost predicate Located(entries: seq<Entry>, rel: Path, specifiers: seq<Path>)
    decreases |rel|
  {
    rel != [] && exists e | e in entries :: (
      && e.name == rel[0]
      && if |rel| == 1 then e.File? && IsSource(e.name) && e.specifiers == specifiers
         else e.Dir? && Located(e.entries, rel[1..], specifiers))
  }

  lemma {:induction false} SourcesInConcat(dir: Path, a: seq<Entry>, b: seq<Entry>)
    ensures SourcesIn(dir, a + b) == SourcesIn(dir, a) + SourcesIn(dir, b)
    decreases |a|
  {
    if a == [] {
      assert a + b == b;
    } else {
      assert (a + b)[1..] == a[1..] + b;
      SourcesInConcat(dir, a[1..], b);
    }
  }

  /** The walk pushes onto `out`, descending into each directory as it meets it. */
  method Walk(dir: Path, entries: seq<Entry>, out: seq<Source>) returns (result: seq<Source>)
    ensures result == out + SourcesIn(dir, entries)
    decreases entries
  {
    result := out;
    for i := 0 to |entries|
      invariant result == out + SourcesIn(dir, entries[..i])
    {
      assert entries[..i + 1] == entries[..i] + [entries[i]];
      SourcesInConcat(dir, entries[..i], [entries[i]]);
      assert SourcesIn(dir, [entries[i]]) == SourcesOf(dir, entries[i]) + SourcesIn(dir, [entries[i]][1..]);
      match entries[i]
      case Dir(name, children) => result := Walk(dir + [name], children, result);
      case File(name, specifiers) =>
        if IsSource(name) { result := result + [Source(dir + [name], specifiers)]; }
    }
    assert entries[..|entries|] == entries;
  }

  /** The walk finds every source file, at any depth, and nothing else. */
  lemma {:induction false} WalkFindsAll(dir: Path, entries: seq<Entry>, src: Source)
    ensures src in SourcesIn(dir, entries) <==>
      |src.path| > |dir| && src.path[..|dir|] == dir && Located(entries, src.path[|dir|..], src.specifiers)
    decreases entries
  {
    if entries != [] {
      var e := entries[0];
      WalkFindsAll(dir, entries[1..], src);
      WalkEntry(dir, e, src);
      assert entries == [e] + entries[1..];
      if |src.path| > |dir| && src.path[..|dir|] == dir {
        LocatedSplit(e, entries[1..], src.path[|dir|..], src.specifiers);
        assert [e] + entries[1..] == entries;
      }
    }
  }

  lemma LocatedSplit(e: Entry, rest: seq<Entry>, rel: Path, specifiers: seq<Path>)
    ensures Located([e] + rest, rel, specifiers) <==> Located([e], rel, specifiers) || Located(rest, rel, specifiers)
  {
    assert e in [e];
  }

  lemma {:induction false} WalkEntry(dir: Path, e: Entry, src: Source)
    ensures src in SourcesOf(dir, e) <==>
      |src.path| > |dir| && src.path[..|dir|] == dir && Located([e], src.path[|dir|..], src.specifiers)
    decreases e
  {
    match e
    case File(name, specifiers) =>
      if IsSource(name) && src == Source(dir + [name], specifiers) {
        assert src.path[|dir|..] == [name] && e in [e];
      }
      if |src.path| > |dir| && src.path[..|dir|] == dir && Located([e], src.path[|dir|..], src.specifiers) {
        assert src.path == dir + src.path[|dir|..];
        assert src.path[|dir|..] == [name];
      }
    case Dir(name, entries) =>
      WalkFindsAll(dir + [name], entries, src);
      if |src.path| > |dir| && src.path[..|dir|] == dir {
        assert |src.path| > |dir| + 1 && src.path[|dir|] == name ==>
          src.path[..|dir| + 1] == dir + [name] && src.path[|dir|..][1..] == src.path[|dir| + 1..];
      }
      if |src.path| > |dir| + 1 && src.path[..|dir| + 1] == dir + [name] {
        assert src.path[..|dir|] == src.path[..|dir| + 1][..|dir|] == dir;
        assert src.path[|dir|] == src.path[..|dir| + 1][|dir|] == name;
        assert e in [e];
      }
  }

  // ── One import ────────────────────────────────────────────────────

  /** `^src/modules/([^/]+)/`: the module a path lies in. */
  function ModuleOf(path: Path): Option<string> {
    if |path| >= 4 && path[0] == "src" && path[1] == "modules" && path[2] != "" then Some(path[2]) else None
  }

  /** `posix.normalize` over segments. */
  function Normalize(done: Path, rest: Path): Path
    decreases |rest|
  {
    if rest == [] then done
    else if rest[0] == "." || rest[0] == "" then Normalize(done, rest[1..])
    else if rest[0] == ".." && done != [] && done[|done|-1] != ".." then Normalize(done[..|done|-1], rest[1..])
    else Normalize(done + [rest[0]], rest[1..])
  }

  /** Normal paths go up first, if at all, and then only down. */
  ghost predicate Normal(path: Path) {
    && (forall i | 0 <= i < |path| :: path[i] != "." && path[i] != "")
    && (forall i, j | 0 <= i < j < |path| && path[j] == ".." :: path[i] == "..")
  }

  lemma {:induction false} NormalizeIsNormal(done: Path, rest: Path)
    requires Normal(done)
    ensures Normal(Normalize(done, rest))
    decreases |rest|
  {
    if rest == [] {
    } else if rest[0] == "." || rest[0] == "" {
      NormalizeIsNormal(done, rest[1..]);
    } else if rest[0] == ".." && done != [] && done[|done|-1] != ".." {
      NormalizeIsNormal(done[..|done|-1], rest[1..]);
    } else {
      NormalizeIsNormal(done + [rest[0]], rest[1..]);
    }
  }

  lemma {:induction false} NormalStays(done: Path, rest: Path)
    requires Normal(done + rest)
    ensures Normalize(done, rest) == done + rest
    decreases |rest|
  {
    if rest == [] {
      assert done + rest == done;
    } else {
      assert (done + rest)[|done|] == rest[0];
      assert done != [] ==> (done + rest)[|done| - 1] == done[|done| - 1];
      assert (done + [rest[0]]) + rest[1..] == done + rest;
      NormalStays(done + [rest[0]], rest[1..]);
    }
  }

  /** Normalizing a normal path changes nothing. */
  lemma NormalizeIdempotent(path: Path)
    ensures Normal(Normalize([], path)) && Normalize([], Normalize([], path)) == Normalize([], path)
  {
    NormalizeIsNormal([], path);
    assert [] + Normalize([], path) == Normalize([], path);
    NormalStays([], Normalize([], path));
  }

  function Retarget(name: string): string {
    if EndsWith(name, ".js") then name[..|name| - 3] + ".ts" else name
  }

  /** A relative specifier, resolved against the file's directory, `.js` back to `.ts`; others name packages. */
  function ResolveSpecifier(from: Path, specifier: Path): Option<Path> {
    if specifier == [] || specifier[0] == "" || specifier[0][0] != '.' then None
    else
      var directory := if from == [] then [] else from[..|from|-1];
      var joined := Normalize([], directory + specifier) + (if specifier[|specifier|-1] == "" then [""] else []);
      Some(if joined == [] then joined else joined[..|joined|-1] + [Retarget(joined[|joined|-1])])
  }

  /** Names of directories and files, as against steps in place or up. */
  ghost predicate Plain(path: Path) { forall i | 0 <= i < |path| :: path[i] != "." && path[i] != ".." && path[i] != "" }

  function Ups(n: nat): Path { seq(n, _ => "..") }

  lemma {:induction false} DownTheRest(done: Path, rest: Path)
    requires Plain(rest)
    ensures Normalize(done, rest) == done + rest
    decreases |rest|
  {
    if rest == [] {
      assert done + rest == done;
    } else {
      DownTheRest(done + [rest[0]], rest[1..]);
      assert (done + [rest[0]]) + rest[1..] == done + rest;
    }
  }

  lemma {:induction false} UpThenDown(done: Path, n: nat, rest: Path)
    requires Plain(done) && Plain(rest) && n <= |done|
    ensures Normalize(done, Ups(n) + rest) == done[..|done| - n] + rest
    decreases n
  {
    if n == 0 {
      assert Ups(0) + rest == rest && done[..|done| - 0] == done;
      DownTheRest(done, rest);
    } else {
      var path := Ups(n) + rest;
      assert path[0] == ".." && path[1..] == Ups(n - 1) + rest;
      UpThenDown(done[..|done| - 1], n - 1, rest);
      assert done[..|done| - 1][..|done| - 1 - (n - 1)] == done[..|done| - n];
    }
  }

  lemma NormalizeAfter(done: Path, dir: Path, rest: Path)
    requires Plain(dir)
    ensures Normalize(done, dir + rest) == Normalize(done + dir, rest)
    decreases |dir|
  {
    if dir == [] {
      assert dir + rest == rest && done + dir == done;
    } else {
      assert (dir + rest)[0] == dir[0] && (dir + rest)[1..] == dir[1..] + rest;
      NormalizeAfter(done + [dir[0]], dir[1..], rest);
      assert (done + [dir[0]]) + dir[1..] == done + dir;
    }
  }

  lemma {:induction false} DirectoryFirst(dir: Path, here: bool, n: nat, rest: Path)
    requires Plain(dir) && Plain(rest) && n <= |dir|
    ensures Normalize([], dir + ((if here then ["."] else []) + Ups(n) + rest)) == dir[..|dir| - n] + rest
  {
    var relative := (if here then ["."] else []) + Ups(n) + rest;
    NormalizeAfter([], dir, relative);
    assert [] + dir == dir;
    if here { assert relative[1..] == Ups(n) + rest; } else { assert relative == Ups(n) + rest; }
    UpThenDown(dir, n, rest);
  }

  /** What a name in an import stands for on disk: `x.js` for `x.ts`, any other for itself. */
  ghost predicate OnDisk(name: string, file: string) {
    if |name| >= 3 && name[|name| - 3..] == ".js" then |file| == |name| && file[..|file| - 3] == name[..|name| - 3] && file[|file| - 3..] == ".ts"
    else file == name
  }

  /**
   A relative import starts in its file's own directory, goes up for each `..` and then
   down by name; any specifier that does not start with a dot names a package.
   */
  lemma RelativeImports(from: Path, here: bool, n: nat, names: Path)
    requires from != [] && Plain(from) && Plain(names) && names != [] && n < |from| && (here || n > 0)
    ensures var specifier := (if here then ["."] else []) + Ups(n) + names;
      var target := ResolveSpecifier(from, specifier);
      && target.Some? && |target.value| == |from| - 1 - n + |names|
      && target.value[..|from| - 1 - n] == from[..|from| - 1 - n]
      && target.value[|from| - 1 - n..|target.value| - 1] == names[..|names| - 1]
      && OnDisk(names[|names| - 1], target.value[|target.value| - 1])
  {
    hide Normalize;
    hide Retarget;
    hide OnDisk;
    var specifier := (if here then ["."] else []) + Ups(n) + names;
    var directory := from[..|from| - 1];
    DirectoryFirst(directory, here, n, names);
    assert specifier[0] == "." || specifier[0] == "..";
    assert specifier[|specifier| - 1] == names[|names| - 1];
    var joined := directory[..|directory| - n] + names;
    assert joined + [] == joined;
    ResolvedLast(from, specifier, joined);
    RetargetExactly(names[|names| - 1]);
    assert directory[..|directory| - n] == from[..|from| - 1 - n];
  }

  lemma ResolvedLast(from: Path, specifier: Path, joined: Path)
    requires from != [] && specifier != [] && specifier[0] != "" && specifier[0][0] == '.' && specifier[|specifier| - 1] != ""
    requires joined != [] && Normalize([], from[..|from| - 1] + specifier) + [] == joined
    ensures ResolveSpecifier(from, specifier) == Some(joined[..|joined| - 1] + [Retarget(joined[|joined| - 1])])
  {
    hide Normalize;
    hide Retarget;
  }

  lemma RetargetExactly(name: string)
    ensures OnDisk(name, Retarget(name))
  {
  }

  lemma PackageImports(from: Path, specifier: Path)
    ensures ResolveSpecifier(from, specifier).None? <==> specifier == [] || specifier[0] == "" || specifier[0][0] != '.'
  {
  }

  /** A specifier that ends in a slash names a directory, which is no source file. */
  lemma DirectoryImports(from: Path, specifier: Path)
    requires ResolveSpecifier(from, specifier).Some? && specifier[|specifier| - 1] == ""
    ensures var target := ResolveSpecifier(from, specifier).value; target != [] && target[|target| - 1] == ""
  {
  }

  /** A path lies in the module whose directory it is under. */
  lemma ModuleExactly(path: Path, mod: string)
    ensures ModuleOf(path) == Some(mod) <==> |path| > 3 && path[..3] == ["src", "modules", mod] && mod != ""
  {
    if |path| > 3 { assert path[..3] == [path[0], path[1], path[2]]; }
  }

  /** The sources are the TypeScript files that are no declarations. */
  lemma SourceExactly(name: string)
    ensures IsSource(name) <==>
      (exists stem: string :: name == stem + ".ts") && !exists stem: string :: name == stem + ".d.ts"
  {
    if |name| >= 3 { assert name == name[..|name| - 3] + name[|name| - 3..]; }
    if |name| >= 5 { assert name == name[..|name| - 5] + name[|name| - 5..]; }
    forall stem: string | name == stem + ".ts" ensures EndsWith(name, ".ts") { }
    forall stem: string | name == stem + ".d.ts" ensures EndsWith(name, ".d.ts") { }
  }

  /** What may be imported, said of the paths themselves. */
  lemma MayImportExactly(file: Path, target: Path)
    ensures MayImport(file, target) <==>
      || (forall mod :: ModuleOf(target) != Some(mod) || ModuleOf(file) == Some(mod))
      || ((file == ["src", "server", "index.ts"] || file == ["src", "server", "handler-registry.ts"])
          && exists mod :: target == ["src", "modules", mod, "index.ts"] && mod != "")
  {
    if ModuleOf(target).Some? { assert ModuleOf(target) == Some(ModuleOf(target).value); }
    if ModuleOf(target).Some? && target == IndexOf(ModuleOf(target).value) { ModuleExactly(target, ModuleOf(target).value); }
    forall mod | target == ["src", "modules", mod, "index.ts"] && mod != "" ensures ModuleOf(target) == Some(mod) && target == IndexOf(mod) { }
  }

  const COMPOSITION_ROOTS: seq<Path> := [["src", "server", "index.ts"], ["src", "server", "handler-registry.ts"]]

  function IndexOf(mod: string): Path { ["src", "modules", mod, "index.ts"] }

  datatype Reason = ModuleImportsModule | CoreImportsModule | RootImportsInternals

  datatype Violation = Violation(file: Path, specifier: Path, reason: Reason)

  // ── What is allowed ───────────────────────────────────────────────

  ghost predicate MayImport(file: Path, target: Path) {
    && (ModuleOf(target).Some? && ModuleOf(target) != ModuleOf(file) ==>
          file in COMPOSITION_ROOTS && target == IndexOf(ModuleOf(target).value))
  }

  /** The file has an import that resolves to `target`. */
  ghost predicate Imports(sources: seq<Source>, file: Path, target: Path) {
    exists s, sp | s in sources && sp in s.specifiers :: s.path == file && ResolveSpecifier(file, sp) == Some(target)
  }

  /** Nothing to report about these specifiers. */
  ghost predicate Innocent(file: Path, specifiers: seq<Path>) {
    forall sp | sp in specifiers :: ResolveSpecifier(file, sp).Some? ==> MayImport(file, ResolveSpecifier(file, sp).value)
  }

  lemma RootsAreCore(file: Path)
    requires file in COMPOSITION_ROOTS
    ensures ModuleOf(file).None?
  {
  }

  /** The checker's nested loops; it reports nothing exactly when every import is allowed. */
  method FindBoundaryViolations(tree: seq<Entry>) returns (violations: seq<Violation>)
    ensures violations == [] <==> forall s | s in SourcesIn(["src"], tree) :: Innocent(s.path, s.specifiers)
    ensures forall v | v in violations :: ReportedRightly(SourcesIn(["src"], tree), v)
  {
    hide Innocent;
    hide ReportedRightly;
    hide SourcesIn;
    violations := [];
    var sources := Walk(["src"], tree, []);
    assert sources == SourcesIn(["src"], tree);
    for i := 0 to |sources|
      invariant violations == [] <==> forall s | s in sources[..i] :: Innocent(s.path, s.specifiers)
      invariant forall v | v in violations :: ReportedRightly(sources, v)
    {
      var found := ViolationsIn(sources, i);
      assert sources[..i + 1] == sources[..i] + [sources[i]];
      violations := violations + found;
    }
    assert sources[..|sources|] == sources;
  }

  ghost predicate ReportedRightly(sources: seq<Source>, v: Violation) {
    exists t :: Imports(sources, v.file, t) && !MayImport(v.file, t)
      && (v.reason == ModuleImportsModule <==> ModuleOf(v.file).Some?)
      && (v.reason == RootImportsInternals <==> v.file in COMPOSITION_ROOTS)
  }

  method ViolationsIn(sources: seq<Source>, i: nat) returns (violations: seq<Violation>)
    requires i < |sources|
    ensures violations == [] <==> Innocent(sources[i].path, sources[i].specifiers)
    ensures forall v | v in violations :: ReportedRightly(sources, v)
  {
    violations := [];
    var file, specifiers := sources[i].path, sources[i].specifiers;
    var owningModule := ModuleOf(file);
    for n := 0 to |specifiers|
      invariant violations == [] <==> Innocent(file, specifiers[..n])
      invariant forall v | v in violations :: ReportedRightly(sources, v)
    {
      var specifier := specifiers[n];
      assert specifiers[..n + 1] == specifiers[..n] + [specifier];
      var target := ResolveSpecifier(file, specifier);
      if target.None? { continue; }
      assert Imports(sources, file, target.value) by { assert sources[i] in sources && specifier in specifiers; }
      var targetModule := ModuleOf(target.value);
      if targetModule.None? { continue; }
      if targetModule == owningModule { continue; }
      if owningModule.Some? {
        violations := Report(sources, violations, file, specifier, target.value, ModuleImportsModule);
        continue;
      }
      if file !in COMPOSITION_ROOTS {
        violations := Report(sources, violations, file, specifier, target.value, CoreImportsModule);
        continue;
      }
      if target.value != IndexOf(targetModule.value) {
        violations := Report(sources, violations, file, specifier, target.value, RootImportsInternals);
      }
    }
    assert specifiers[..|specifiers|] == specifiers;
  }

  method Report(sources: seq<Source>, violations: seq<Violation>, file: Path, specifier: Path, ghost target: Path, reason: Reason)
      returns (more: seq<Violation>)
    requires Imports(sources, file, target) && !MayImport(file, target)
    requires reason == ModuleImportsModule <==> ModuleOf(file).Some?
    requires reason == RootImportsInternals <==> file in COMPOSITION_ROOTS
    requires forall v | v in violations :: ReportedRightly(sources, v)
    ensures more == violations + [Violation(file, specifier, reason)]
    ensures forall v | v in more :: ReportedRightly(sources, v)
  {
    more := violations + [Violation(file, specifier, reason)];
    assert ReportedRightly(sources, Violation(file, specifier, reason));
  }

  // ── What a silent checker means for import paths ──────────────────

  ghost predicate Silent(sources: seq<Source>) {
    forall s | s in sources :: Innocent(s.path, s.specifiers)
  }

  /** A chain of imports. */
  ghost predicate ImportPath(sources: seq<Source>, path: seq<Path>) {
    path != [] && forall i | 0 <= i < |path| - 1 :: Imports(sources, path[i], path[i + 1])
  }

  lemma SilentStep(sources: seq<Source>, file: Path, target: Path)
    requires Silent(sources) && Imports(sources, file, target)
    ensures MayImport(file, target)
  {
    var s, sp :| s in sources && sp in s.specifiers && s.path == file && ResolveSpecifier(file, sp) == Some(target);
  }

  /** Every path that ends inside a module and starts outside it enters from a composition root, by the module's index. */
  lemma {:induction false} EntersByIndex(sources: seq<Source>, path: seq<Path>, mod: string)
    requires Silent(sources) && ImportPath(sources, path)
    requires ModuleOf(path[0]) != Some(mod) && ModuleOf(path[|path|-1]) == Some(mod)
    ensures exists i :: 0 <= i < |path| - 1 && path[i] in COMPOSITION_ROOTS && path[i + 1] == IndexOf(mod)
    decreases |path|
  {
    var n := |path| - 1;
    assert Imports(sources, path[n - 1], path[n]);
    SilentStep(sources, path[n - 1], path[n]);
    if ModuleOf(path[n - 1]) == Some(mod) {
      EntersByIndex(sources, path[..n], mod);
      var i :| 0 <= i < |path[..n]| - 1 && path[..n][i] in COMPOSITION_ROOTS && path[..n][i + 1] == IndexOf(mod);
      assert path[i] in COMPOSITION_ROOTS && path[i + 1] == IndexOf(mod);
    } else {
      assert path[n - 1] in COMPOSITION_ROOTS && path[n - 1 + 1] == IndexOf(mod);
    }
  }

  /** Drop the composition roots, and no path leads from core into a module, or from one module into another. */
  lemma ModulesCanBeDropped(sources: seq<Source>, path: seq<Path>)
    requires Silent(sources) && ImportPath(sources, path)
    requires forall i | 0 <= i < |path| :: path[i] !in COMPOSITION_ROOTS
    ensures ModuleOf(path[|path|-1]).Some? ==> ModuleOf(path[|path|-1]) == ModuleOf(path[0])
  {
    var last := ModuleOf(path[|path|-1]);
    if last.Some? && last != ModuleOf(path[0]) {
      EntersByIndex(sources, path, last.value);
    }
  }

  /** The check is complete: an import it should not allow is a path of length one that breaks the rule. */
  lemma NoisyBreaksTheRule(sources: seq<Source>)
    requires !Silent(sources)
    ensures exists file, target :: (
      && Imports(sources, file, target) && ModuleOf(target).Some? && ModuleOf(target) != ModuleOf(file)
      && !(file in COMPOSITION_ROOTS && target == IndexOf(ModuleOf(target).value)))
  {
    var s :| s in sources && !Innocent(s.path, s.specifiers);
    var sp :| sp in s.specifiers && ResolveSpecifier(s.path, sp).Some? && !MayImport(s.path, ResolveSpecifier(s.path, sp).value);
    assert Imports(sources, s.path, ResolveSpecifier(s.path, sp).value);
  }
}
