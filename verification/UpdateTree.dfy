/** The walk over an unpacked update in the updaters (`_other/updater_linux.cpp`,
    `_other/updater_win.cpp`). */
module UpdateTree {

  // What `readdir` and `stat` tell: a file, something `stat` fails for, or a directory,
  // which may turn out not to open.
  datatype Tree = File | Unknown | Dir(readable: bool, entries: seq<Entry>)
  datatype Entry = Entry(name: string, tree: Tree)

  // `tdataDir` is the folder `tdata` of the update, `binary` the file name the binary has
  // in the update and `exeName` the one it gets.
  datatype Setup = Setup(
    sep: char, updDir: string, tdataDir: string, readyFile: string, target: string, updater: string,
    binary: string, exeName: string)

  ghost predicate Valid(c: Setup) {
    (c.sep == '/' || c.sep == '\\') && c.tdataDir == c.updDir + [c.sep] + "tdata"
  }

  // File names have no separators in them.
  ghost predicate WellNamed(c: Setup, entries: seq<Entry>) {
    forall e :: e in entries ==>
      && e.name != "" && c.sep !in e.name && '/' !in e.name
      && (e.tree.Dir? ==> WellNamed(c, e.tree.entries))
  }

  function LowerChar(ch: char): char { if 'A' <= ch <= 'Z' then ((ch as int) + 32) as char else ch }

  predicate SameFrom(a: string, b: string, i: nat)
    requires i <= |a| == |b|
    decreases |a| - i
  {
    i == |a| || (LowerChar(a[i]) == LowerChar(b[i]) && SameFrom(a, b, i + 1))
  }

  predicate SameName(a: string, b: string) { |a| == |b| && SameFrom(a, b, 0) }

  function Join(c: Setup, dir: string, name: string): string { dir + [c.sep] + name }

  // ----- Which files the update has, and where they go

  // Only the folder `tdata` at the top is skipped.
  predicate Skipped(c: Setup, dir: string, name: string) {
    name == "." || name == ".." || (dir == c.updDir && name == "tdata")
  }

  function Relative(c: Setup, path: string): string {
    if |path| > |c.updDir| then path[|c.updDir| + 1..] else ""
  }

  function Target(c: Setup, file: string): string {
    var to := c.target + Relative(c, file);
    if SameName(to, c.target + c.binary) && c.exeName != c.binary then c.target + c.exeName else to
  }

  function TargetDir(c: Setup, dir: string): string { c.target + Relative(c, dir) + [c.sep] }

  // Windows compares the name of the ready file without case.
  predicate IsReady(c: Setup, file: string) {
    if c.sep == '\\' then SameName(file, c.readyFile) else file == c.readyFile
  }

  // The file has the name of the updater.
  predicate Bad(c: Setup, file: string) { SameName(c.target + Relative(c, file), c.updater) }

  function Files(c: Setup, dir: string, entries: seq<Entry>): multiset<string>
    decreases entries
  {
    if entries == [] then multiset{}
    else
      var e := entries[|entries| - 1];
      Files(c, dir, entries[..|entries| - 1]) + (if Skipped(c, dir, e.name) then multiset{} else FilesOf(c, Join(c, dir, e.name), e.tree))
  }

  function FilesOf(c: Setup, path: string, t: Tree): multiset<string>
    decreases t
  {
    match t
    case File => if IsReady(c, path) then multiset{} else multiset{path}
    case Unknown => multiset{}
    case Dir(_, entries) => Files(c, path, entries)
  }

  // The directories below, as they are in the target.
  function Dirs(c: Setup, dir: string, entries: seq<Entry>): multiset<string>
    decreases entries
  {
    if entries == [] then multiset{}
    else
      var e := entries[|entries| - 1];
      Dirs(c, dir, entries[..|entries| - 1]) + (if Skipped(c, dir, e.name) then multiset{} else DirsOf(c, Join(c, dir, e.name), e.tree))
  }

  function DirsOf(c: Setup, path: string, t: Tree): multiset<string>
    decreases t
  {
    if t.Dir? then multiset{TargetDir(c, path)} + Dirs(c, path, t.entries) else multiset{}
  }

  // Every directory opens and no file is the updater.
  predicate Clean(c: Setup, dir: string, entries: seq<Entry>)
    decreases entries
  {
    if entries == [] then true
    else
      var e := entries[|entries| - 1];
      Clean(c, dir, entries[..|entries| - 1]) && (Skipped(c, dir, e.name) || CleanOf(c, Join(c, dir, e.name), e.tree))
  }

  predicate CleanOf(c: Setup, path: string, t: Tree)
    decreases t
  {
    match t
    case File => !Bad(c, path)
    case Unknown => true
    case Dir(readable, entries) => readable && Clean(c, path, entries)
  }

  // ----- The test for `tdata`

  predicate IsTdata(c: Setup, path: string) { StartsAs(c, path, '/') }

  // The folder `tdata`, or something with the given separator after it.
  predicate StartsAs(c: Setup, path: string, ch: char) {
    && |path| >= |c.tdataDir| && path[..|c.tdataDir|] == c.tdataDir
    && (|path| <= |c.tdataDir| || path[|c.tdataDir|] == ch)
  }

  // A directory of the update, other than `tdata` and what is in it.
  ghost predicate Inside(c: Setup, dir: string) {
    dir == c.updDir ||
    (|dir| > |c.updDir| + 1 && dir[..|c.updDir| + 1] == c.updDir + [c.sep] && !IsTdata(c, dir) && !StartsAs(c, dir, c.sep))
  }

  lemma StartsExactly(c: Setup, dir: string, name: string, ch: char)
    requires Valid(c) && Inside(c, dir) && name != "" && c.sep !in name && '/' !in name && (ch == '/' || ch == c.sep)
    ensures StartsAs(c, Join(c, dir, name), ch) <==> dir == c.updDir && name == "tdata"
  {
    var path, n := Join(c, dir, name), |c.updDir|;
    var t := |c.tdataDir|;
    assert c.tdataDir[n + 1..] == "tdata" && c.tdataDir[..n + 1] == c.updDir + [c.sep];
    if dir == c.updDir {
      assert path == c.updDir + [c.sep] + name;
      assert |name| >= 5 ==> path[..t] == c.updDir + [c.sep] + name[..5];
      assert name[..] == name;
    } else if |dir| >= t {
      assert path[..t] == dir[..t] && (|dir| > t ==> path[t] == dir[t]);
    } else {
      assert c.tdataDir[|dir|] == "tdata"[|dir| - n - 1] && path[|dir|] == c.sep;
      assert |path| >= t ==> path[..t][|dir|] == c.sep;
    }
  }

  // The test on the whole path just finds the one folder.
  lemma TdataExactly(c: Setup, dir: string, name: string)
    requires Valid(c) && Inside(c, dir) && name != "" && c.sep !in name && '/' !in name
    ensures IsTdata(c, Join(c, dir, name)) <==> dir == c.updDir && name == "tdata"
    ensures StartsAs(c, Join(c, dir, name), c.sep) <==> dir == c.updDir && name == "tdata"
    ensures !IsTdata(c, Join(c, dir, name)) ==> Inside(c, Join(c, dir, name))
  {
    var path, n := Join(c, dir, name), |c.updDir|;
    StartsExactly(c, dir, name, '/');
    StartsExactly(c, dir, name, c.sep);
    assert path[..n + 1] == c.updDir + [c.sep] by {
      assert dir != c.updDir ==> path[..n + 1] == dir[..n + 1];
    }
  }

  // ----- The files of the update are all files but those in `tdata` and the ready file

  function AllFiles(c: Setup, dir: string, entries: seq<Entry>): multiset<string>
    decreases entries
  {
    if entries == [] then multiset{}
    else
      var e := entries[|entries| - 1];
      AllFiles(c, dir, entries[..|entries| - 1]) +
      (if e.name == "." || e.name == ".." then multiset{} else AllFilesOf(c, Join(c, dir, e.name), e.tree))
  }

  function AllFilesOf(c: Setup, path: string, t: Tree): multiset<string>
    decreases t
  {
    match t
    case File => multiset{path}
    case Unknown => multiset{}
    case Dir(_, entries) => AllFiles(c, path, entries)
  }

  lemma {:induction false} BelowTdata(c: Setup, dir: string, entries: seq<Entry>, file: string)
    requires StartsAs(c, dir, c.sep) && !StartsAs(c, file, c.sep)
    ensures AllFiles(c, dir, entries)[file] == 0
    decreases entries
  {
    if entries != [] {
      var e := entries[|entries| - 1];
      BelowTdata(c, dir, entries[..|entries| - 1], file);
      var path, t := Join(c, dir, e.name), |c.tdataDir|;
      assert path[..t] == dir[..t] && path[t] == (if |dir| > t then dir[t] else c.sep);
      if e.tree.Dir? {
        BelowTdata(c, path, e.tree.entries, file);
      }
    }
  }

  lemma {:induction false} FilesExactly(c: Setup, dir: string, entries: seq<Entry>, file: string)
    requires Valid(c) && Inside(c, dir) && WellNamed(c, entries)
    ensures Files(c, dir, entries)[file] ==
      if StartsAs(c, file, c.sep) || IsReady(c, file) then 0 else AllFiles(c, dir, entries)[file]
    decreases entries
  {
    if entries != [] {
      var e := entries[|entries| - 1];
      assert e in entries && forall f :: f in entries[..|entries| - 1] ==> f in entries;
      FilesExactly(c, dir, entries[..|entries| - 1], file);
      TdataExactly(c, dir, e.name);
      if e.name != "." && e.name != ".." {
        if Skipped(c, dir, e.name) {
          FilesInTdata(c, Join(c, dir, e.name), e.tree, file);
        } else {
          FilesOfExactly(c, Join(c, dir, e.name), e.tree, file);
        }
      }
    }
  }

  lemma {:induction false} FilesOfExactly(c: Setup, path: string, t: Tree, file: string)
    requires Valid(c) && Inside(c, path) && !StartsAs(c, path, c.sep) && (t.Dir? ==> WellNamed(c, t.entries))
    ensures FilesOf(c, path, t)[file] ==
      if StartsAs(c, file, c.sep) || IsReady(c, file) then 0 else AllFilesOf(c, path, t)[file]
    decreases t
  {
    if t.Dir? {
      FilesExactly(c, path, t.entries, file);
    }
  }

  lemma FilesInTdata(c: Setup, path: string, t: Tree, file: string)
    requires StartsAs(c, path, c.sep)
    ensures StartsAs(c, file, c.sep) || AllFilesOf(c, path, t)[file] == 0
  {
    if t.Dir? && !StartsAs(c, file, c.sep) {
      BelowTdata(c, path, t.entries, file);
    }
  }

  // The binary of the update, which gets another name.
  predicate Renamed(c: Setup, file: string) {
    SameName(c.target + Relative(c, file), c.target + c.binary) && c.exeName != c.binary
  }

  // In a clean update a file that is copied falls on the updater exactly if it is the
  // binary and gets the name of the updater.
  lemma {:induction false} UpdaterIsSafe(c: Setup, dir: string, entries: seq<Entry>, file: string)
    requires Clean(c, dir, entries) && file in Files(c, dir, entries)
    ensures SameName(Target(c, file), c.updater) <==> Renamed(c, file) && SameName(c.target + c.exeName, c.updater)
    decreases entries
  {
    var n := |entries| - 1;
    if file in Files(c, dir, entries[..n]) {
      UpdaterIsSafe(c, dir, entries[..n], file);
    } else if entries[n].tree.Dir? {
      UpdaterIsSafe(c, Join(c, dir, entries[n].name), entries[n].tree.entries, file);
    }
  }

  // A binary that is itself to be called `Updater`.
  const RENAMING := Setup('/', "u", "u/tdata", "u/ready", "t/", "t/Updater", "Telegram", "Updater")

  lemma RenamingIsValid()
    ensures Valid(RENAMING) && WellNamed(RENAMING, [Entry("Telegram", File)])
  {}

  lemma RenamingTarget()
    ensures Relative(RENAMING, "u/Telegram") == "Telegram" && !Bad(RENAMING, "u/Telegram")
    ensures Target(RENAMING, "u/Telegram") == RENAMING.updater
  {
    var c := RENAMING;
    assert Relative(c, "u/Telegram") == "Telegram" && c.target + "Telegram" == "t/Telegram";
    assert c.target + c.exeName == c.updater;
    SameNameSelf("t/Telegram", 0);
  }

  // It happens: the test for the updater comes before the binary gets its new name.
  lemma UpdaterIsOverwritten()
    ensures var c, entries := RENAMING, [Entry("Telegram", File)];
      && Valid(c) && WellNamed(c, entries) && Clean(c, "u", entries)
      && "u/Telegram" in Files(c, "u", entries) && Target(c, "u/Telegram") == c.updater
  {
    var c, entries := RENAMING, [Entry("Telegram", File)];
    RenamingIsValid();
    RenamingTarget();
    assert Join(c, "u", "Telegram") == "u/Telegram";
    assert entries[..0] == [] && Clean(c, "u", entries[..0]);
  }

  lemma {:induction false} SameNameSelf(a: string, i: nat)
    requires i <= |a|
    ensures SameFrom(a, a, i)
    decreases |a| - i
  {
    if i < |a| {
      SameNameSelf(a, i + 1);
    }
  }

  // ----- What an update comes to, entry by entry

  ghost predicate SameLetter(x: char, y: char) {
    x == y || ('A' <= x <= 'Z' && y as int == x as int + 32) || ('A' <= y <= 'Z' && x as int == y as int + 32)
  }

  // The same name, up to the case of its letters.
  ghost predicate SameLetters(a: string, b: string) {
    |a| == |b| && forall i :: 0 <= i < |a| ==> SameLetter(a[i], b[i])
  }

  lemma {:induction false} SameFromExactly(a: string, b: string, i: nat)
    requires i <= |a| == |b|
    ensures SameFrom(a, b, i) <==> forall k :: i <= k < |a| ==> SameLetter(a[k], b[k])
    decreases |a| - i
  {
    if i < |a| {
      SameFromExactly(a, b, i + 1);
      assert LowerChar(a[i]) == LowerChar(b[i]) <==> SameLetter(a[i], b[i]);
    }
  }

  lemma SameNameExactly(a: string, b: string)
    ensures SameName(a, b) <==> SameLetters(a, b)
  {
    if |a| == |b| { SameFromExactly(a, b, 0); }
  }

  // A file somewhere below a directory, and a directory there.
  ghost predicate HasFile(c: Setup, dir: string, entries: seq<Entry>, file: string)
    decreases entries
  {
    exists e :: e in entries && e.name != "." && e.name != ".." &&
      if e.tree.Dir? then HasFile(c, dir + [c.sep] + e.name, e.tree.entries, file)
      else e.tree.File? && file == dir + [c.sep] + e.name
  }

  ghost predicate HasDir(c: Setup, dir: string, entries: seq<Entry>, path: string, closed: bool)
    decreases entries
  {
    exists e :: e in entries && e.name != "." && e.name != ".." && e.tree.Dir? &&
      ((path == dir + [c.sep] + e.name && (closed ==> !e.tree.readable))
        || HasDir(c, dir + [c.sep] + e.name, e.tree.entries, path, closed))
  }

  // The folder `tdata` at the top, or something in it.
  ghost predicate InTdata(c: Setup, path: string) {
    path == c.updDir + [c.sep] + "tdata" || c.updDir + [c.sep] + "tdata" + [c.sep] <= path
  }

  ghost predicate IsReadyFile(c: Setup, file: string) {
    if c.sep == '/' then file == c.readyFile else SameLetters(file, c.readyFile)
  }

  // What a path of the update is without its top directory.
  ghost predicate IsRest(c: Setup, path: string, rest: string) { path == c.updDir + [c.sep] + rest }

  lemma TdataIs(c: Setup, path: string)
    requires Valid(c)
    ensures StartsAs(c, path, c.sep) <==> InTdata(c, path)
  {
    var t := c.updDir + [c.sep] + "tdata";
    assert t == c.tdataDir;
    if StartsAs(c, path, c.sep) {
      assert path == if |path| <= |t| then t else t + [c.sep] + path[|t| + 1..];
    }
  }

  lemma ReadyIs(c: Setup, file: string)
    requires Valid(c)
    ensures IsReady(c, file) <==> IsReadyFile(c, file)
  {
    SameNameExactly(file, c.readyFile);
  }

  lemma {:induction false} AllFilesExactly(c: Setup, dir: string, entries: seq<Entry>, file: string)
    ensures file in AllFiles(c, dir, entries) <==> HasFile(c, dir, entries, file)
    decreases entries
  {
    if entries != [] {
      var n := |entries| - 1;
      AllFilesExactly(c, dir, entries[..n], file);
      assert entries == entries[..n] + [entries[n]];
      if entries[n].tree.Dir? {
        AllFilesExactly(c, Join(c, dir, entries[n].name), entries[n].tree.entries, file);
      }
      assert forall e :: e in entries <==> e in entries[..n] || e == entries[n];
    }
  }

  // The copy list: the files that are neither in `tdata` nor the ready file.
  lemma CopiedExactly(c: Setup, entries: seq<Entry>, file: string)
    requires Valid(c) && WellNamed(c, entries)
    ensures file in Files(c, c.updDir, entries) <==>
      HasFile(c, c.updDir, entries, file) && !InTdata(c, file) && !IsReadyFile(c, file)
  {
    FilesExactly(c, c.updDir, entries, file);
    AllFilesExactly(c, c.updDir, entries, file);
    TdataIs(c, file);
    ReadyIs(c, file);
  }

  // Where a file goes.
  ghost predicate GoesTo(c: Setup, file: string, to: string) {
    exists rest :: IsRest(c, file, rest) &&
      to == c.target + if SameLetters(c.target + rest, c.target + c.binary) && c.exeName != c.binary then c.exeName else rest
  }

  lemma TargetExactly(c: Setup, file: string, rest: string)
    requires IsRest(c, file, rest)
    ensures GoesTo(c, file, Target(c, file)) && Relative(c, file) == rest
  {
    SameNameExactly(c.target + rest, c.target + c.binary);
    assert file[|c.updDir| + 1..] == rest;
  }

  lemma {:induction false} DirsInTdata(c: Setup, dir: string, entries: seq<Entry>, path: string, closed: bool)
    requires StartsAs(c, dir, c.sep) && HasDir(c, dir, entries, path, closed)
    ensures StartsAs(c, path, c.sep)
    decreases entries
  {
    var e :| e in entries && e.name != "." && e.name != ".." && e.tree.Dir? &&
      ((path == dir + [c.sep] + e.name && (closed ==> !e.tree.readable))
        || HasDir(c, dir + [c.sep] + e.name, e.tree.entries, path, closed));
    var below, t := dir + [c.sep] + e.name, |c.tdataDir|;
    assert below[..t] == dir[..t] && below[t] == (if |dir| > t then dir[t] else c.sep);
    if path != below {
      DirsInTdata(c, below, e.tree.entries, path, closed);
    }
  }

  lemma {:induction false} FilesInTdataOnly(c: Setup, dir: string, entries: seq<Entry>, file: string)
    requires StartsAs(c, dir, c.sep) && HasFile(c, dir, entries, file)
    ensures StartsAs(c, file, c.sep)
  {
    if !StartsAs(c, file, c.sep) {
      BelowTdata(c, dir, entries, file);
      AllFilesExactly(c, dir, entries, file);
    }
  }

  // A directory that is made in the target.
  ghost predicate IsMade(c: Setup, dir: string, entries: seq<Entry>, d: string) {
    exists path :: HasDir(c, dir, entries, path, false) && !StartsAs(c, path, c.sep) && d == TargetDir(c, path)
  }

  lemma HasDirMore(c: Setup, dir: string, entries: seq<Entry>, path: string, closed: bool)
    requires entries != []
    ensures var n := |entries| - 1;
      var e := entries[n];
      HasDir(c, dir, entries, path, closed) <==>
        HasDir(c, dir, entries[..n], path, closed) || (e.name != "." && e.name != ".." && e.tree.Dir? &&
          ((path == dir + [c.sep] + e.name && (closed ==> !e.tree.readable))
            || HasDir(c, dir + [c.sep] + e.name, e.tree.entries, path, closed)))
  {
    var n := |entries| - 1;
    assert forall e :: e in entries <==> e in entries[..n] || e == entries[n];
  }

  lemma IsMadeMore(c: Setup, dir: string, entries: seq<Entry>, d: string)
    requires entries != []
    ensures var n := |entries| - 1;
      var e, below := entries[n], dir + [c.sep] + entries[n].name;
      IsMade(c, dir, entries, d) <==>
        IsMade(c, dir, entries[..n], d) || (e.name != "." && e.name != ".." && e.tree.Dir? &&
          ((!StartsAs(c, below, c.sep) && d == TargetDir(c, below)) || IsMade(c, below, e.tree.entries, d)))
  {
    var n := |entries| - 1;
    var e, below := entries[n], dir + [c.sep] + entries[n].name;
    forall path ensures HasDir(c, dir, entries, path, false) <==>
      HasDir(c, dir, entries[..n], path, false) || (e.name != "." && e.name != ".." && e.tree.Dir? &&
        (path == below || HasDir(c, below, e.tree.entries, path, false)))
    {
      HasDirMore(c, dir, entries, path, false);
    }
  }

  lemma NoneMadeInTdata(c: Setup, dir: string, entries: seq<Entry>, d: string)
    requires StartsAs(c, dir, c.sep)
    ensures !IsMade(c, dir, entries, d)
  {
    forall path | HasDir(c, dir, entries, path, false) ensures StartsAs(c, path, c.sep) {
      DirsInTdata(c, dir, entries, path, false);
    }
  }

  lemma {:induction false} DirsAre(c: Setup, dir: string, entries: seq<Entry>, d: string)
    requires Valid(c) && Inside(c, dir) && WellNamed(c, entries)
    ensures d in Dirs(c, dir, entries) <==> IsMade(c, dir, entries, d)
    decreases entries
  {
    if entries != [] {
      var n := |entries| - 1;
      var e, below := entries[n], Join(c, dir, entries[n].name);
      assert e in entries && forall f :: f in entries[..n] ==> f in entries;
      DirsAre(c, dir, entries[..n], d);
      if e.tree.Dir? && !Skipped(c, dir, e.name) {
        TdataExactly(c, dir, e.name);
        DirsAre(c, below, e.tree.entries, d);
      }
      DirsMore(c, dir, entries, d);
    }
  }

  lemma DirsMore(c: Setup, dir: string, entries: seq<Entry>, d: string)
    requires Valid(c) && Inside(c, dir) && WellNamed(c, entries) && entries != []
    requires var n := |entries| - 1;
      var e, below := entries[n], Join(c, dir, entries[n].name);
      && (d in Dirs(c, dir, entries[..n]) <==> IsMade(c, dir, entries[..n], d))
      && (e.tree.Dir? && !Skipped(c, dir, e.name) ==> (d in Dirs(c, below, e.tree.entries) <==> IsMade(c, below, e.tree.entries, d)))
    ensures d in Dirs(c, dir, entries) <==> IsMade(c, dir, entries, d)
  {
    var e := entries[|entries| - 1];
    assert e in entries;
    IsMadeMore(c, dir, entries, d);
    TdataExactly(c, dir, e.name);
    if e.tree.Dir? && Skipped(c, dir, e.name) && e.name != "." && e.name != ".." {
      NoneMadeInTdata(c, Join(c, dir, e.name), e.tree.entries, d);
    }
  }

  // What is made: the directories outside of `tdata`, in the target.
  lemma MadeExactly(c: Setup, entries: seq<Entry>, d: string)
    requires Valid(c) && WellNamed(c, entries)
    ensures d in Dirs(c, c.updDir, entries) <==>
      exists path, rest :: HasDir(c, c.updDir, entries, path, false) && !InTdata(c, path) && IsRest(c, path, rest)
        && d == c.target + rest + [c.sep]
  {
    DirsAre(c, c.updDir, entries, d);
    forall path | HasDir(c, c.updDir, entries, path, false)
      ensures IsRest(c, path, Relative(c, path)) && (StartsAs(c, path, c.sep) <==> InTdata(c, path))
    {
      TdataIs(c, path);
      HasDirBelow(c, c.updDir, entries, path, false);
    }
    forall path, rest | IsRest(c, path, rest) ensures Relative(c, path) == rest {
      TargetExactly(c, path, rest);
    }
  }

  lemma {:induction false} HasDirBelow(c: Setup, dir: string, entries: seq<Entry>, path: string, closed: bool)
    requires HasDir(c, dir, entries, path, closed)
    ensures dir + [c.sep] <= path && path == dir + [c.sep] + path[|dir| + 1..]
    decreases entries
  {
    var e :| e in entries && e.name != "." && e.name != ".." && e.tree.Dir? &&
      ((path == dir + [c.sep] + e.name && (closed ==> !e.tree.readable))
        || HasDir(c, dir + [c.sep] + e.name, e.tree.entries, path, closed));
    if path != dir + [c.sep] + e.name {
      HasDirBelow(c, dir + [c.sep] + e.name, e.tree.entries, path, closed);
    }
  }

  // No directory is closed and no file has the name of the updater, but for `tdata`.
  ghost predicate AllFine(c: Setup, dir: string, entries: seq<Entry>) {
    && (forall path :: HasDir(c, dir, entries, path, true) ==> StartsAs(c, path, c.sep))
    && (forall file :: HasFile(c, dir, entries, file) ==> StartsAs(c, file, c.sep) || !Bad(c, file))
  }

  lemma HasFileMore(c: Setup, dir: string, entries: seq<Entry>, file: string)
    requires entries != []
    ensures var n := |entries| - 1;
      var e := entries[n];
      HasFile(c, dir, entries, file) <==>
        HasFile(c, dir, entries[..n], file) || (e.name != "." && e.name != ".." &&
          if e.tree.Dir? then HasFile(c, dir + [c.sep] + e.name, e.tree.entries, file)
          else e.tree.File? && file == dir + [c.sep] + e.name)
  {
    var n := |entries| - 1;
    assert forall e :: e in entries <==> e in entries[..n] || e == entries[n];
  }

  // What one entry has to do with it.
  ghost predicate EntryFine(c: Setup, dir: string, e: Entry) {
    e.name == "." || e.name == ".." ||
    var below := dir + [c.sep] + e.name;
    match e.tree
    case File => StartsAs(c, below, c.sep) || !Bad(c, below)
    case Unknown => true
    case Dir(readable, entries) => (readable || StartsAs(c, below, c.sep)) && AllFine(c, below, entries)
  }

  lemma AllFineMore(c: Setup, dir: string, entries: seq<Entry>)
    requires entries != []
    ensures var n := |entries| - 1;
      AllFine(c, dir, entries) <==> AllFine(c, dir, entries[..n]) && EntryFine(c, dir, entries[n])
  {
    var n := |entries| - 1;
    var e, below := entries[n], dir + [c.sep] + entries[n].name;
    forall path ensures HasDir(c, dir, entries, path, true) <==>
      HasDir(c, dir, entries[..n], path, true) || (e.name != "." && e.name != ".." && e.tree.Dir? &&
        ((path == below && !e.tree.readable) || HasDir(c, below, e.tree.entries, path, true)))
    {
      HasDirMore(c, dir, entries, path, true);
    }
    forall file ensures HasFile(c, dir, entries, file) <==>
      HasFile(c, dir, entries[..n], file) || (e.name != "." && e.name != ".." &&
        if e.tree.Dir? then HasFile(c, below, e.tree.entries, file) else e.tree.File? && file == below)
    {
      HasFileMore(c, dir, entries, file);
    }
  }

  lemma TdataIsFine(c: Setup, dir: string, entries: seq<Entry>)
    requires StartsAs(c, dir, c.sep)
    ensures AllFine(c, dir, entries)
  {
    forall path | HasDir(c, dir, entries, path, true) ensures StartsAs(c, path, c.sep) {
      DirsInTdata(c, dir, entries, path, true);
    }
    forall file | HasFile(c, dir, entries, file) ensures StartsAs(c, file, c.sep) {
      FilesInTdataOnly(c, dir, entries, file);
    }
  }

  lemma {:induction false} CleanIs(c: Setup, dir: string, entries: seq<Entry>)
    requires Valid(c) && Inside(c, dir) && WellNamed(c, entries)
    ensures Clean(c, dir, entries) <==> AllFine(c, dir, entries)
    decreases entries
  {
    if entries != [] {
      var n := |entries| - 1;
      var e, below := entries[n], Join(c, dir, entries[n].name);
      assert e in entries && forall f :: f in entries[..n] ==> f in entries;
      CleanIs(c, dir, entries[..n]);
      AllFineMore(c, dir, entries);
      TdataExactly(c, dir, e.name);
      if e.tree.Dir? && e.name != "." && e.name != ".." {
        if Skipped(c, dir, e.name) {
          TdataIsFine(c, below, e.tree.entries);
        } else {
          CleanIs(c, below, e.tree.entries);
        }
      }
    }
  }

  // What an update must not have outside of `tdata`: a directory that does not open, or a
  // file with the name of the updater.
  ghost predicate Refuses(c: Setup, entries: seq<Entry>) {
    || (exists path :: HasDir(c, c.updDir, entries, path, true) && !InTdata(c, path))
    || (exists file, rest :: HasFile(c, c.updDir, entries, file) && !InTdata(c, file)
          && IsRest(c, file, rest) && SameLetters(c.target + rest, c.updater))
  }

  lemma {:induction false} HasFileBelow(c: Setup, dir: string, entries: seq<Entry>, file: string)
    requires HasFile(c, dir, entries, file)
    ensures dir + [c.sep] <= file && file == dir + [c.sep] + file[|dir| + 1..]
    decreases entries
  {
    var e :| e in entries && e.name != "." && e.name != ".." &&
      if e.tree.Dir? then HasFile(c, dir + [c.sep] + e.name, e.tree.entries, file)
      else e.tree.File? && file == dir + [c.sep] + e.name;
    if e.tree.Dir? {
      HasFileBelow(c, dir + [c.sep] + e.name, e.tree.entries, file);
    }
  }

  lemma CleanExactly(c: Setup, entries: seq<Entry>)
    requires Valid(c) && WellNamed(c, entries)
    ensures Clean(c, c.updDir, entries) <==> !Refuses(c, entries)
  {
    CleanIs(c, c.updDir, entries);
    forall path ensures StartsAs(c, path, c.sep) <==> InTdata(c, path) {
      TdataIs(c, path);
    }
    forall file | HasFile(c, c.updDir, entries, file)
      ensures IsRest(c, file, Relative(c, file)) && (Bad(c, file) <==> SameLetters(c.target + Relative(c, file), c.updater))
    {
      HasFileBelow(c, c.updDir, entries, file);
      SameNameExactly(c.target + Relative(c, file), c.updater);
    }
    forall file, rest | IsRest(c, file, rest) ensures Relative(c, file) == rest {
      TargetExactly(c, file, rest);
    }
  }

  // ----- One directory

  datatype Place = Place(path: string, readable: bool, entries: seq<Entry>)

  function SubDirs(c: Setup, dir: string, entries: seq<Entry>): seq<Place> {
    if entries == [] then []
    else
      var e, rest := entries[|entries| - 1], SubDirs(c, dir, entries[..|entries| - 1]);
      if !Skipped(c, dir, e.name) && e.tree.Dir? then rest + [Place(Join(c, dir, e.name), e.tree.readable, e.tree.entries)] else rest
  }

  function LocalFiles(c: Setup, dir: string, entries: seq<Entry>): seq<string> {
    if entries == [] then []
    else
      var e, rest := entries[|entries| - 1], LocalFiles(c, dir, entries[..|entries| - 1]);
      if !Skipped(c, dir, e.name) && e.tree.File? && !IsReady(c, Join(c, dir, e.name)) then rest + [Join(c, dir, e.name)] else rest
  }

  predicate NoneBad(c: Setup, dir: string, entries: seq<Entry>) {
    forall i :: 0 <= i < |entries| ==>
      !Skipped(c, dir, entries[i].name) && entries[i].tree.File? ==> !Bad(c, Join(c, dir, entries[i].name))
  }

  function QueueFiles(c: Setup, q: seq<Place>): multiset<string> {
    if q == [] then multiset{} else QueueFiles(c, q[..|q| - 1]) + Files(c, q[|q| - 1].path, q[|q| - 1].entries)
  }

  function PlaceDirs(c: Setup, p: Place): multiset<string> {
    (if |p.path| > |c.updDir| + 1 then multiset{TargetDir(c, p.path)} else multiset{}) + Dirs(c, p.path, p.entries)
  }

  function QueueDirs(c: Setup, q: seq<Place>): multiset<string> {
    if q == [] then multiset{} else QueueDirs(c, q[..|q| - 1]) + PlaceDirs(c, q[|q| - 1])
  }

  predicate PlaceClean(c: Setup, p: Place) { p.readable && Clean(c, p.path, p.entries) }

  predicate QueueClean(c: Setup, q: seq<Place>) { forall i :: 0 <= i < |q| ==> PlaceClean(c, q[i]) }

  function Size(entries: seq<Entry>): nat {
    if entries == [] then 0
    else
      var e := entries[|entries| - 1];
      Size(entries[..|entries| - 1]) + 1 + (if e.tree.Dir? then Size(e.tree.entries) else 0)
  }

  function QueueSize(q: seq<Place>): nat {
    if q == [] then 0 else QueueSize(q[..|q| - 1]) + 1 + Size(q[|q| - 1].entries)
  }

  lemma {:induction false} FilesSplit(c: Setup, dir: string, entries: seq<Entry>)
    ensures multiset(LocalFiles(c, dir, entries)) + QueueFiles(c, SubDirs(c, dir, entries)) == Files(c, dir, entries)
  {
    if entries != [] {
      FilesSplit(c, dir, entries[..|entries| - 1]);
      var e, q := entries[|entries| - 1], SubDirs(c, dir, entries[..|entries| - 1]);
      if !Skipped(c, dir, e.name) && e.tree.Dir? {
        assert (q + [Place(Join(c, dir, e.name), e.tree.readable, e.tree.entries)])[..|q|] == q;
      }
    }
  }

  lemma {:induction false} DirsSplit(c: Setup, dir: string, entries: seq<Entry>)
    requires |dir| >= |c.updDir| && forall e :: e in entries ==> e.name != ""
    ensures QueueDirs(c, SubDirs(c, dir, entries)) == Dirs(c, dir, entries)
  {
    if entries != [] {
      DirsSplit(c, dir, entries[..|entries| - 1]);
      var e, q := entries[|entries| - 1], SubDirs(c, dir, entries[..|entries| - 1]);
      if !Skipped(c, dir, e.name) && e.tree.Dir? {
        assert (q + [Place(Join(c, dir, e.name), e.tree.readable, e.tree.entries)])[..|q|] == q;
      }
    }
  }

  lemma {:induction false} CleanSplit(c: Setup, dir: string, entries: seq<Entry>)
    ensures Clean(c, dir, entries) <==> NoneBad(c, dir, entries) && QueueClean(c, SubDirs(c, dir, entries))
  {
    if entries != [] {
      var n := |entries| - 1;
      CleanSplit(c, dir, entries[..n]);
      NoneBadMore(c, dir, entries);
      var e, q := entries[n], SubDirs(c, dir, entries[..n]);
      if !Skipped(c, dir, e.name) && e.tree.Dir? {
        QueueCleanMore(c, q, Place(Join(c, dir, e.name), e.tree.readable, e.tree.entries));
      }
    }
  }

  lemma NoneBadMore(c: Setup, dir: string, entries: seq<Entry>)
    requires entries != []
    ensures var n := |entries| - 1;
      var e := entries[n];
      NoneBad(c, dir, entries) <==>
        NoneBad(c, dir, entries[..n]) && !(!Skipped(c, dir, e.name) && e.tree.File? && Bad(c, Join(c, dir, e.name)))
  {}

  lemma QueueCleanMore(c: Setup, q: seq<Place>, p: Place)
    ensures QueueClean(c, q + [p]) <==> QueueClean(c, q) && PlaceClean(c, p)
  {
    assert forall i :: 0 <= i < |q| ==> (q + [p])[i] == q[i];
    assert (q + [p])[|q|] == p;
  }

  lemma {:induction false} SizeSplit(c: Setup, dir: string, entries: seq<Entry>)
    ensures QueueSize(SubDirs(c, dir, entries)) <= Size(entries)
  {
    if entries != [] {
      SizeSplit(c, dir, entries[..|entries| - 1]);
      var e, q := entries[|entries| - 1], SubDirs(c, dir, entries[..|entries| - 1]);
      if !Skipped(c, dir, e.name) && e.tree.Dir? {
        assert (q + [Place(Join(c, dir, e.name), e.tree.readable, e.tree.entries)])[..|q|] == q;
      }
    }
  }

  // ----- The queue

  lemma {:induction false} FilesConcat(c: Setup, a: seq<Place>, b: seq<Place>)
    ensures QueueFiles(c, a + b) == QueueFiles(c, a) + QueueFiles(c, b)
  {
    if b == [] {
      assert a + b == a;
    } else {
      assert (a + b)[..|a + b| - 1] == a + b[..|b| - 1];
      FilesConcat(c, a, b[..|b| - 1]);
    }
  }

  lemma {:induction false} DirsConcat(c: Setup, a: seq<Place>, b: seq<Place>)
    ensures QueueDirs(c, a + b) == QueueDirs(c, a) + QueueDirs(c, b)
  {
    if b == [] {
      assert a + b == a;
    } else {
      assert (a + b)[..|a + b| - 1] == a + b[..|b| - 1];
      DirsConcat(c, a, b[..|b| - 1]);
    }
  }

  lemma {:induction false} SizeConcat(a: seq<Place>, b: seq<Place>)
    ensures QueueSize(a + b) == QueueSize(a) + QueueSize(b)
  {
    if b == [] {
      assert a + b == a;
    } else {
      assert (a + b)[..|a + b| - 1] == a + b[..|b| - 1];
      SizeConcat(a, b[..|b| - 1]);
    }
  }

  // The directory at the front gives way to those in it.
  function Popped(c: Setup, q: seq<Place>): seq<Place>
    requires q != []
  {
    q[1..] + SubDirs(c, q[0].path, q[0].entries)
  }

  lemma PopFiles(c: Setup, q: seq<Place>)
    requires q != []
    ensures QueueFiles(c, q) == multiset(LocalFiles(c, q[0].path, q[0].entries)) + QueueFiles(c, Popped(c, q))
  {
    var p, rest := q[0], q[1..];
    assert q == [p] + rest && [p][..0] == [];
    FilesConcat(c, [p], rest);
    FilesConcat(c, rest, SubDirs(c, p.path, p.entries));
    FilesSplit(c, p.path, p.entries);
  }

  lemma PopDirs(c: Setup, q: seq<Place>)
    requires q != [] && |q[0].path| >= |c.updDir| && forall e :: e in q[0].entries ==> e.name != ""
    ensures QueueDirs(c, q) ==
      (if |q[0].path| > |c.updDir| + 1 then multiset{TargetDir(c, q[0].path)} else multiset{}) + QueueDirs(c, Popped(c, q))
  {
    var p, rest := q[0], q[1..];
    assert q == [p] + rest && [p][..0] == [];
    DirsConcat(c, [p], rest);
    DirsConcat(c, rest, SubDirs(c, p.path, p.entries));
    DirsSplit(c, p.path, p.entries);
  }

  lemma PopClean(c: Setup, q: seq<Place>)
    requires q != []
    ensures QueueClean(c, q) <==> q[0].readable && NoneBad(c, q[0].path, q[0].entries) && QueueClean(c, Popped(c, q))
  {
    var p, rest := q[0], q[1..];
    CleanSplit(c, p.path, p.entries);
    var r, sub := Popped(c, q), SubDirs(c, p.path, p.entries);
    assert QueueClean(c, q) <==> PlaceClean(c, p) && QueueClean(c, rest) by {
      assert forall i :: 0 <= i < |rest| ==> q[i + 1] == rest[i];
      assert forall i :: 0 < i < |q| ==> q[i] == rest[i - 1];
    }
    assert QueueClean(c, r) <==> QueueClean(c, rest) && QueueClean(c, sub) by {
      assert forall i :: 0 <= i < |rest| ==> r[i] == rest[i];
      assert forall i :: 0 <= i < |sub| ==> r[|rest| + i] == sub[i];
    }
  }

  lemma PopSize(c: Setup, q: seq<Place>)
    requires q != []
    ensures QueueSize(Popped(c, q)) < QueueSize(q)
  {
    var p, rest := q[0], q[1..];
    assert q == [p] + rest && [p][..0] == [];
    SizeConcat([p], rest);
    SizeConcat(rest, SubDirs(c, p.path, p.entries));
    SizeSplit(c, p.path, p.entries);
  }

  // ----- The directories are made in order

  // A directory can be made when its parent is the target or was made before.
  ghost predicate HasParent(c: Setup, made: seq<string>, dir: string) {
    exists parent: string, name: string :: IsChild(c, dir, parent, name) && (parent == c.target || parent in made)
  }

  ghost predicate IsChild(c: Setup, dir: string, parent: string, name: string) {
    dir == parent + name + [c.sep] && name != "" && c.sep !in name
  }

  ghost predicate ParentsFirst(c: Setup, made: seq<string>) {
    forall k :: 0 <= k < |made| ==> HasParent(c, made[..k], made[k])
  }

  // What holds of a place in the queue.
  ghost predicate Queued(c: Setup, made: seq<string>, p: Place) {
    && Inside(c, p.path) && WellNamed(c, p.entries)
    && (p.path != c.updDir ==> HasParent(c, made, TargetDir(c, p.path)))
  }

  lemma ChildHasParent(c: Setup, made: seq<string>, dir: string, name: string)
    requires Inside(c, dir) && (dir == c.updDir || TargetDir(c, dir) in made)
    requires name != "" && c.sep !in name
    ensures HasParent(c, made, TargetDir(c, Join(c, dir, name)))
  {
    var path := Join(c, dir, name);
    if dir == c.updDir {
      assert Relative(c, path) == name;
      assert IsChild(c, TargetDir(c, path), c.target, name);
    } else {
      assert Relative(c, path) == Relative(c, dir) + [c.sep] + name;
      assert TargetDir(c, path) == TargetDir(c, dir) + name + [c.sep];
      assert IsChild(c, TargetDir(c, path), TargetDir(c, dir), name);
    }
  }

  lemma {:induction false} SubDirsQueued(c: Setup, made: seq<string>, dir: string, entries: seq<Entry>)
    requires Valid(c) && Inside(c, dir) && WellNamed(c, entries) && (dir == c.updDir || TargetDir(c, dir) in made)
    ensures forall p :: p in SubDirs(c, dir, entries) ==> Queued(c, made, p)
  {
    if entries != [] {
      var e := entries[|entries| - 1];
      assert forall f :: f in entries[..|entries| - 1] ==> f in entries;
      SubDirsQueued(c, made, dir, entries[..|entries| - 1]);
      assert e in entries;
      TdataExactly(c, dir, e.name);
      ChildHasParent(c, made, dir, e.name);
    }
  }

  lemma OneMore(c: Setup, made: seq<string>, dir: string)
    requires ParentsFirst(c, made) && HasParent(c, made, dir)
    ensures ParentsFirst(c, made + [dir])
  {
    var more := made + [dir];
    forall k | 0 <= k < |more| ensures HasParent(c, more[..k], more[k]) {
      assert more[..k] == made[..k];
      assert made[..|made|] == made;
    }
  }

  lemma StillQueued(c: Setup, made: seq<string>, dir: string, p: Place)
    requires Queued(c, made, p)
    ensures Queued(c, made + [dir], p)
  {
    if p.path != c.updDir {
      var parent: string, name: string :|
        IsChild(c, TargetDir(c, p.path), parent, name) && (parent == c.target || parent in made);
      assert parent == c.target || parent in made + [dir];
    }
  }

  lemma PopQueued(c: Setup, made: seq<string>, q: seq<Place>)
    requires Valid(c) && q != [] && (forall p :: p in q ==> Queued(c, made, p)) && ParentsFirst(c, made)
    ensures var more := Forced(c, made, q[0]);
      ParentsFirst(c, more) && forall r :: r in Popped(c, q) ==> Queued(c, more, r)
  {
    var p := q[0];
    assert p in q;
    var more := Forced(c, made, p);
    if |p.path| > |c.updDir| + 1 {
      OneMore(c, made, TargetDir(c, p.path));
    }
    SubDirsQueued(c, more, p.path, p.entries);
    forall r | r in q[1..] ensures Queued(c, more, r) {
      assert r in q;
      StillQueued(c, made, TargetDir(c, p.path), r);
    }
  }

  // ----- `update`

  // Where each file goes.
  function Targets(c: Setup, from: seq<string>): (to: seq<string>)
    ensures |to| == |from|
  {
    if from == [] then [] else Targets(c, from[..|from| - 1]) + [Target(c, from[|from| - 1])]
  }

  lemma {:induction false} TargetsAt(c: Setup, from: seq<string>, i: nat)
    requires i < |from|
    ensures Targets(c, from)[i] == Target(c, from[i])
  {
    if i < |from| - 1 {
      TargetsAt(c, from[..|from| - 1], i);
    }
  }

  lemma {:induction false} TargetsConcat(c: Setup, a: seq<string>, b: seq<string>)
    ensures Targets(c, a + b) == Targets(c, a) + Targets(c, b)
  {
    if b == [] {
      assert a + b == a;
    } else {
      assert (a + b)[..|a + b| - 1] == a + b[..|b| - 1];
      TargetsConcat(c, a, b[..|b| - 1]);
    }
  }

  method SkipsTdata(c: Setup, dir: string, name: string) returns (fname: string, skips: bool)
    requires Valid(c) && Inside(c, dir) && name != "" && c.sep !in name && '/' !in name
    ensures fname == Join(c, dir, name) && |fname| > |c.updDir| && (skips <==> dir == c.updDir && name == "tdata")
  {
    fname := dir + [c.sep] + name;
    TdataExactly(c, dir, name);
    skips := |fname| >= |c.tdataDir| && fname[..|c.tdataDir|] == c.tdataDir
      && (|fname| <= |c.tdataDir| || fname[|c.tdataDir|] == '/');
  }

  // Where a file goes, unless it would fall on the updater.
  method FindTarget(c: Setup, fname: string) returns (ok: bool, tofname: string)
    requires |fname| > |c.updDir|
    ensures (ok <==> !Bad(c, fname)) && (ok ==> tofname == Target(c, fname))
  {
    ok := true;
    tofname := c.target + fname[|c.updDir| + 1..];
    if SameName(tofname, c.updater) {
      ok := false;
    } else if SameName(tofname, c.target + c.binary) && c.exeName != c.binary {
      tofname := c.target + c.exeName;
    }
  }

  lemma EntryMore(c: Setup, dir: string, entries: seq<Entry>, i: nat)
    requires i < |entries|
    ensures var e, path := entries[i], Join(c, dir, entries[i].name);
      var takes := !Skipped(c, dir, e.name);
      && SubDirs(c, dir, entries[..i + 1]) == SubDirs(c, dir, entries[..i]) +
        (if takes && e.tree.Dir? then [Place(path, e.tree.readable, e.tree.entries)] else [])
      && LocalFiles(c, dir, entries[..i + 1]) == LocalFiles(c, dir, entries[..i]) +
        (if takes && e.tree.File? && !IsReady(c, path) then [path] else [])
      && (NoneBad(c, dir, entries[..i + 1]) <==> NoneBad(c, dir, entries[..i]) && !(takes && e.tree.File? && Bad(c, path)))
  {
    assert entries[..i + 1][..i] == entries[..i] && entries[..i + 1][i] == entries[i];
    assert forall k :: 0 <= k < i ==> entries[..i + 1][k] == entries[..i][k];
  }

  // The inner loop: what is in one directory.
  method ReadDir(c: Setup, dir: string, entries: seq<Entry>) returns (ok: bool, dirs: seq<Place>, from: seq<string>, to: seq<string>)
    requires Valid(c) && Inside(c, dir) && WellNamed(c, entries)
    ensures ok <==> NoneBad(c, dir, entries)
    ensures ok ==> dirs == SubDirs(c, dir, entries) && from == LocalFiles(c, dir, entries) && to == Targets(c, from)
  {
    ok, dirs, from, to := true, [], [], [];
    for i := 0 to |entries|
      invariant ok && NoneBad(c, dir, entries[..i]) && to == Targets(c, from)
      invariant dirs == SubDirs(c, dir, entries[..i]) && from == LocalFiles(c, dir, entries[..i])
    {
      var e := entries[i];
      assert e in entries;
      EntryMore(c, dir, entries, i);
      if e.name != "." && e.name != ".." {
        var fname, skips := SkipsTdata(c, dir, e.name);
        if skips {
        } else if e.tree.Dir? {
          dirs := dirs + [Place(fname, e.tree.readable, e.tree.entries)];
        } else if e.tree.File? {
          var tofname;
          ok, tofname := FindTarget(c, fname);
          if !ok {
            assert !NoneBad(c, dir, entries[..i + 1]);
            return;
          }
          if !IsReady(c, fname) {
            TargetsConcat(c, from, [fname]);
            assert [fname][..0] == [];
            from, to := from + [fname], to + [tofname];
          }
        }
      }
    }
    assert entries[..|entries|] == entries;
  }

  // The walk over all directories; `root` is the folder of the update.
  method Walk(c: Setup, root: Place) returns (ok: bool, from: seq<string>, to: seq<string>, forcedirs: seq<string>)
    requires Valid(c) && root.path == c.updDir && WellNamed(c, root.entries)
    ensures ok <==> PlaceClean(c, root)
    ensures ok ==>
      && multiset(from) == Files(c, root.path, root.entries) && to == Targets(c, from)
      && multiset(forcedirs) == Dirs(c, root.path, root.entries) && ParentsFirst(c, forcedirs)
  {
    ok, from, to, forcedirs := true, [], [], [];
    var dirs := [root];
    WalkRoot(c, root);
    WalkEnds(c, root, dirs, [], []);
    while dirs != []
      invariant ok && to == Targets(c, from) && Rest(c, dirs, from, forcedirs) == Rest(c, [root], [], [])
      invariant AllInside(c, dirs)
      decreases QueueSize(dirs)
    {
      PopSize(c, dirs);
      PopInside(c, dirs);
      ok, dirs, from, to, forcedirs := Visit(c, dirs, from, to, forcedirs);
      if !ok {
        return;
      }
    }
  }

  // The body of the walk.
  method Visit(c: Setup, queue: seq<Place>, from0: seq<string>, to0: seq<string>, forced: seq<string>)
    returns (ok: bool, dirs: seq<Place>, from: seq<string>, to: seq<string>, forcedirs: seq<string>)
    requires Valid(c) && queue != [] && AllInside(c, queue) && to0 == Targets(c, from0)
    ensures ok <==> queue[0].readable && NoneBad(c, queue[0].path, queue[0].entries)
    ensures ok ==>
      && dirs == Popped(c, queue) && from == from0 + LocalFiles(c, queue[0].path, queue[0].entries) && to == Targets(c, from)
      && forcedirs == Forced(c, forced, queue[0])
  {
    var p := queue[0];
    assert p in queue;
    ok, dirs, from, to, forcedirs := true, queue[1..], from0, to0, forced;
    if |p.path| > |c.updDir| + 1 {
      var toDir := c.target + p.path[|c.updDir| + 1..] + [c.sep];
      forcedirs := forcedirs + [toDir];
    }
    if !p.readable {
      ok := false;
      return;
    }
    var subdirs, files, targets;
    ok, subdirs, files, targets := ReadDir(c, p.path, p.entries);
    if !ok {
      return;
    }
    dirs := dirs + subdirs;
    TargetsConcat(c, from, files);
    from, to := from + files, to + targets;
  }

  ghost predicate AllInside(c: Setup, q: seq<Place>) {
    forall p :: p in q ==> Inside(c, p.path) && WellNamed(c, p.entries)
  }

  // How the walk goes on.
  datatype Outcome = Stopped | Done(from: seq<string>, forcedirs: seq<string>)

  function Forced(c: Setup, forcedirs: seq<string>, p: Place): seq<string> {
    if |p.path| > |c.updDir| + 1 then forcedirs + [TargetDir(c, p.path)] else forcedirs
  }

  function Rest(c: Setup, dirs: seq<Place>, from: seq<string>, forcedirs: seq<string>): Outcome
    decreases QueueSize(dirs)
  {
    if dirs == [] then Done(from, forcedirs)
    else
      var p := dirs[0];
      PopSize(c, dirs);
      if p.readable && NoneBad(c, p.path, p.entries) then
        Rest(c, Popped(c, dirs), from + LocalFiles(c, p.path, p.entries), Forced(c, forcedirs, p))
      else Stopped
  }

  lemma PopInside(c: Setup, q: seq<Place>)
    requires Valid(c) && q != [] && AllInside(c, q)
    ensures AllInside(c, Popped(c, q))
  {
    SubDirsInside(c, q[0].path, q[0].entries);
  }

  lemma {:induction false} SubDirsInside(c: Setup, dir: string, entries: seq<Entry>)
    requires Valid(c) && Inside(c, dir) && WellNamed(c, entries)
    ensures AllInside(c, SubDirs(c, dir, entries))
  {
    if entries != [] {
      var e := entries[|entries| - 1];
      assert e in entries && forall f :: f in entries[..|entries| - 1] ==> f in entries;
      SubDirsInside(c, dir, entries[..|entries| - 1]);
      TdataExactly(c, dir, e.name);
    }
  }

  // What was found so far and what is in the queue makes up the whole.
  ghost predicate Walking(c: Setup, root: Place, dirs: seq<Place>, from: seq<string>, forcedirs: seq<string>) {
    && multiset(from) + QueueFiles(c, dirs) == Files(c, root.path, root.entries)
    && multiset(forcedirs) + QueueDirs(c, dirs) == Dirs(c, root.path, root.entries)
    && (QueueClean(c, dirs) <==> PlaceClean(c, root)) && ParentsFirst(c, forcedirs)
    && forall p :: p in dirs ==> Queued(c, forcedirs, p)
  }

  lemma WalkRoot(c: Setup, root: Place)
    requires Valid(c) && root.path == c.updDir && WellNamed(c, root.entries)
    ensures Walking(c, root, [root], [], [])
  {
    assert [root][..0] == [] && (QueueClean(c, [root]) ==> PlaceClean(c, [root][0]));
  }

  // The walk finds everything, or stops because of what should not be there.
  lemma WalkEnds(c: Setup, root: Place, dirs: seq<Place>, from: seq<string>, forcedirs: seq<string>)
    requires Valid(c) && Walking(c, root, dirs, from, forcedirs)
    ensures match Rest(c, dirs, from, forcedirs)
      case Stopped => !PlaceClean(c, root)
      case Done(files, made) =>
        && PlaceClean(c, root) && multiset(files) == Files(c, root.path, root.entries)
        && multiset(made) == Dirs(c, root.path, root.entries) && ParentsFirst(c, made)
    decreases QueueSize(dirs)
  {
    if dirs != [] {
      var p := dirs[0];
      WalkMore(c, root, dirs, from, forcedirs);
      if p.readable && NoneBad(c, p.path, p.entries) {
        PopSize(c, dirs);
        WalkEnds(c, root, Popped(c, dirs), from + LocalFiles(c, p.path, p.entries), Forced(c, forcedirs, p));
      }
    }
  }

  lemma Shifted(x: seq<string>, y: seq<string>, rest: multiset<string>, all: multiset<string>)
    requires multiset(x) + (multiset(y) + rest) == all
    ensures multiset(x + y) + rest == all
  {}

  lemma WalkMore(c: Setup, root: Place, dirs: seq<Place>, from: seq<string>, forcedirs: seq<string>)
    requires Valid(c) && dirs != [] && Walking(c, root, dirs, from, forcedirs)
    ensures var p := dirs[0];
      if p.readable && NoneBad(c, p.path, p.entries) then
        Walking(c, root, Popped(c, dirs), from + LocalFiles(c, p.path, p.entries), Forced(c, forcedirs, p))
      else !PlaceClean(c, root)
  {
    var p, q := dirs[0], Popped(c, dirs);
    assert Queued(c, forcedirs, p);
    PopClean(c, dirs);
    PopQueued(c, forcedirs, dirs);
    PopFiles(c, dirs);
    Shifted(from, LocalFiles(c, p.path, p.entries), QueueFiles(c, q), Files(c, root.path, root.entries));
    PopDirs(c, dirs);
    if |p.path| > |c.updDir| + 1 {
      Shifted(forcedirs, [TargetDir(c, p.path)], QueueDirs(c, q), Dirs(c, root.path, root.entries));
    }
  }

  method MakeDirs(c: Setup, forcedirs: seq<string>) returns (made: seq<string>)
    requires ParentsFirst(c, forcedirs)
    ensures made == forcedirs
  {
    made := [];
    for i := 0 to |forcedirs|
      invariant made == forcedirs[..i]
    {
      assert HasParent(c, forcedirs[..i], forcedirs[i]);
      if forcedirs[i] != "" {
        made := made + [forcedirs[i]];
      }
    }
  }

  // `update`, where all directories can be made and all files copied.
  method Update(c: Setup, root: Place) returns (done: bool, made: seq<string>, copied: seq<string>, copies: seq<string>)
    requires Valid(c) && root.path == c.updDir && WellNamed(c, root.entries)
    ensures done <==> PlaceClean(c, root)
    ensures !done ==> made == [] && copied == [] && copies == []
    ensures done ==>
      && multiset(made) == Dirs(c, root.path, root.entries) && ParentsFirst(c, made)
      && multiset(copied) == Files(c, root.path, root.entries) && copies == Targets(c, copied)
    ensures done <==> root.readable && !Refuses(c, root.entries)
    ensures done ==> forall file :: file in copied <==>
      HasFile(c, c.updDir, root.entries, file) && !InTdata(c, file) && !IsReadyFile(c, file)
    ensures done ==> |copies| == |copied| && forall i :: 0 <= i < |copied| ==> GoesTo(c, copied[i], copies[i])
    ensures done ==> forall d :: d in made <==>
      exists path, rest :: HasDir(c, c.updDir, root.entries, path, false) && !InTdata(c, path) && IsRest(c, path, rest)
        && d == c.target + rest + [c.sep]
  {
    CleanExactly(c, root.entries);
    made, copied, copies := [], [], [];
    var from, to, forcedirs;
    done, from, to, forcedirs := Walk(c, root);
    if !done {
      return;
    }
    made := MakeDirs(c, forcedirs);
    copied, copies := CopyFiles(from, to);
    CopiesExactly(c, root.entries, copied);
    forall d ensures d in made <==> d in Dirs(c, root.path, root.entries) {
      assert d in made <==> d in multiset(made);
    }
    forall d ensures d in Dirs(c, c.updDir, root.entries) <==>
      exists path, rest :: HasDir(c, c.updDir, root.entries, path, false) && !InTdata(c, path) && IsRest(c, path, rest)
        && d == c.target + rest + [c.sep]
    {
      MadeExactly(c, root.entries, d);
    }
  }

  lemma CopiesExactly(c: Setup, entries: seq<Entry>, copied: seq<string>)
    requires Valid(c) && WellNamed(c, entries) && multiset(copied) == Files(c, c.updDir, entries)
    ensures forall file :: file in copied <==>
      HasFile(c, c.updDir, entries, file) && !InTdata(c, file) && !IsReadyFile(c, file)
    ensures forall i :: 0 <= i < |copied| ==> GoesTo(c, copied[i], Targets(c, copied)[i])
  {
    forall file ensures file in copied <==> HasFile(c, c.updDir, entries, file) && !InTdata(c, file) && !IsReadyFile(c, file) {
      CopiedExactly(c, entries, file);
      assert file in copied <==> file in multiset(copied);
    }
    forall i | 0 <= i < |copied| ensures GoesTo(c, copied[i], Targets(c, copied)[i]) {
      TargetsAt(c, copied, i);
      assert copied[i] in copied;
      HasFileBelow(c, c.updDir, entries, copied[i]);
      TargetExactly(c, copied[i], copied[i][|c.updDir| + 1..]);
    }
  }

  method CopyFiles(from: seq<string>, to: seq<string>) returns (copied: seq<string>, copies: seq<string>)
    requires |from| == |to|
    ensures copied == from && copies == to
  {
    copied, copies := [], [];
    for i := 0 to |from|
      invariant copied == from[..i] && copies == to[..i]
    {
      copied, copies := copied + [from[i]], copies + [to[i]];
    }
  }

  // ----- `mkpath`

  function Parents(path: string): seq<string> {
    if path == "" then []
    else
      var n := |path| - 1;
      Parents(path[..n]) + (if path[n] == '/' && n > 0 && path[n - 1] != '/' then [path[..n]] else [])
  }

  // Every part of the path that ends before a separator, but for doubled ones.
  lemma {:induction false} ParentsExactly(path: string, dir: string)
    ensures dir in Parents(path) <==>
      exists i :: 0 < i < |path| && path[i] == '/' && path[i - 1] != '/' && dir == path[..i]
  {
    if path != "" {
      var n := |path| - 1;
      ParentsExactly(path[..n], dir);
      assert forall i :: 0 < i < n ==> path[..n][..i] == path[..i];
    }
  }

  lemma {:induction false} ParentsUpTo(path: string, pp: nat, sp: nat)
    requires pp <= sp <= |path| && forall i :: pp <= i < sp ==> path[i] != '/'
    ensures Parents(path[..sp]) == Parents(path[..pp])
  {
    if pp < sp {
      ParentsUpTo(path, pp, sp - 1);
      assert path[..sp][..sp - 1] == path[..sp - 1];
    }
  }

  lemma {:induction false} ParentsPrefix(path: string, k: nat)
    requires k <= |path|
    ensures Parents(path[..k]) <= Parents(path)
  {
    if k == |path| {
      assert path[..k] == path;
    } else {
      ParentsPrefix(path[..|path| - 1], k);
      assert path[..|path| - 1][..k] == path[..k];
    }
  }

  lemma NextPart(made: seq<string>, dir: string, parents: seq<string>, path: string)
    requires made + [dir] <= parents
    ensures made <= parents + [path] && |made| < |parents| && (parents + [path])[|made|] == dir
  {
    assert (made + [dir])[|made|] == dir;
  }

  // A path with the end of the string after it.
  ghost predicate Copies(copypath: array<char>, path: string)
    reads copypath
  {
    copypath.Length == |path| + 1 && forall i :: 0 <= i < |path| ==> copypath[i] == path[i]
  }

  // `strchr`, or the end of the path.
  method NextSlash(copypath: array<char>, ghost path: string, pp: nat) returns (sp: nat)
    requires pp <= |path| && Copies(copypath, path)
    ensures pp <= sp <= |path| && (sp < |path| ==> path[sp] == '/') && forall i :: pp <= i < sp ==> path[i] != '/'
  {
    sp := pp;
    while sp < copypath.Length - 1 && copypath[sp] != '/'
      invariant pp <= sp <= |path| && forall i :: pp <= i < sp ==> path[i] != '/'
    {
      sp := sp + 1;
    }
  }

  // The path up to a separator, which makes room for the end of the string for a moment.
  method CutAt(copypath: array<char>, ghost path: string, sp: nat) returns (dir: string)
    requires Copies(copypath, path) && sp < |path| && path[sp] == '/'
    modifies copypath
    ensures Copies(copypath, path) && dir == path[..sp]
  {
    copypath[sp] := '\0';
    dir := copypath[..sp];
    copypath[sp] := '/';
  }

  lemma OnePart(path: string, pp: nat, sp: nat)
    requires pp <= sp < |path| && path[sp] == '/' && (pp > 0 ==> path[pp - 1] == '/')
    requires forall i :: pp <= i < sp ==> path[i] != '/'
    ensures Parents(path[..sp + 1]) == Parents(path[..pp]) + (if sp > pp then [path[..sp]] else [])
  {
    ParentsUpTo(path, pp, sp);
    assert path[..sp + 1][..sp] == path[..sp];
  }

  lemma PartRefused(path: string, made: seq<string>, sp: nat, dir: string)
    requires sp < |path| && Parents(path[..sp + 1]) == made + [dir]
    ensures var all := Parents(path) + [path]; made <= all && |made| < |all| && all[|made|] == dir
  {
    ParentsPrefix(path, sp + 1);
    NextPart(made, dir, Parents(path), path);
  }

  // Makes the directories of a path one after the other in a copy of it; `refused` are
  // those that cannot be made.
  method MkPath(path: string, refused: set<string>) returns (ok: bool, made: seq<string>)
    requires '\0' !in path
    ensures var all := Parents(path) + [path];
      && made <= all && (forall d :: d in made ==> d !in refused)
      && if ok then made == all else |made| < |all| && all[|made|] in refused
  {
    var copypath := new char[|path| + 1](i requires 0 <= i <= |path| => if i < |path| then path[i] else '\0');
    made := [];
    var pp := 0;
    while true
      invariant pp <= |path| && Copies(copypath, path)
      invariant pp > 0 ==> path[pp - 1] == '/'
      invariant made == Parents(path[..pp]) && forall d :: d in made ==> d !in refused
      decreases |path| - pp
    {
      var sp := NextSlash(copypath, path, pp);
      if sp == |path| {
        break;
      }
      OnePart(path, pp, sp);
      if sp != pp {
        var dir := CutAt(copypath, path, sp);
        if dir in refused {
          PartRefused(path, made, sp, dir);
          ok := false;
          return;
        }
        made := made + [dir];
      }
      pp := sp + 1;
    }
    ParentsUpTo(path, pp, |path|);
    assert path[..|path|] == path;
    ok := path !in refused;
    if ok {
      made := made + [path];
    }
  }
}
