/** The four batch operations over a list of entries: sorting the list,
    renaming by a pattern, organizing into subdirectories, and choosing
    where an archive goes. */
module Operations {
  import opened Results
  import opened Paths
  import opened Template
  import opened Ordering
  import opened StableSort
  import opened FileTree

  /** An operation and its parameters, with the constructors' default
      values. */
  datatype Operation =
    | Sorter(sortKey: string := "name", reverse: bool := false)
    | Renamer(pattern: string)
    | Organizer(strategy: string := "extension")
    | Archiver(outputName: string := "archive")

  // ---------------------------------------------------------------- Sorter

  /** `stat().st_size`; only consulted for entries that exist. A file's
      size is its number of bytes, a directory's the size the system gave
      it; no size is negative. */
  function SizeOf(n: Node, p: Path): (r: int)
    ensures 0 <= r
    ensures IsFile(n, p) ==> r == |Lookup(n, p).value.content|
    ensures IsDir(n, p) ==> r == Lookup(n, p).value.size
  {
    match Lookup(n, p)
    case Some(File(content, _)) => |content|
    case Some(Dir(size, _, _)) => size
    case None => 0
  }

  /** `stat().st_mtime`; only consulted for entries that exist. */
  function MTimeOf(n: Node, p: Path): (r: int)
  {
    match Lookup(n, p)
    case Some(File(_, mtime)) => mtime
    case Some(Dir(_, mtime, _)) => mtime
    case None => 0
  }

  /** The time `stat` reports for an existing entry is the modification
      time it carries, file or directory. */
  lemma MTimeOfEntry(n: Node, p: Path)
    requires Exists(n, p)
    ensures MTimeOf(n, p) == Lookup(n, p).value.mtime
  {
  }

  predicate KnownSortKey(sortKey: string)
  {
    sortKey == "name" || sortKey == "date" || sortKey == "size" || sortKey == "extension"
  }

  /** The keys that need `stat`, which raises for a missing entry. */
  predicate NeedsStat(sortKey: string)
  {
    sortKey == "date" || sortKey == "size"
  }

  /** The key an entry is sorted by. */
  function SortKeyOf(n: Node, sortKey: string, p: Path): Key
  {
    if sortKey == "date" then Num(MTimeOf(n, p))
    else if sortKey == "size" then Num(SizeOf(n, p))
    else if sortKey == "extension" then Text(Suffix(Name(p)))
    else Text(Name(p))
  }

  function KeyFn(n: Node, sortKey: string): Path -> Key
  {
    p => SortKeyOf(n, sortKey, p)
  }

  predicate AllExist(n: Node, files: seq<Path>)
  {
    forall j | 0 <= j < |files| :: Exists(n, files[j])
  }

  /** What `Sorter.execute` leaves in the caller's list, or the error
      `stat` raises; an unknown key matches no branch and sorts nothing. */
  function SortResult(n: Node, files: seq<Path>, sortKey: string, reverse: bool): (r: Result<seq<Path>, OsError>)
    ensures r.Err? <==> KnownSortKey(sortKey) && NeedsStat(sortKey)
                        && exists j :: 0 <= j < |files| && !Exists(n, files[j])
    ensures !KnownSortKey(sortKey) ==> r == Ok(files)
  {
    if !KnownSortKey(sortKey) then Ok(files)
    else if NeedsStat(sortKey) && !AllExist(n, files) then Err(SourceMissing)
    else Ok(Sort(files, KeyFn(n, sortKey), reverse))
  }

  /** `Sorter.execute` on the caller's list. The directory is not touched. */
  method ExecuteSorter(fs: FileSystem, files: array<Path>, sortKey: string, reverse: bool)
    returns (err: Option<OsError>)
    modifies files
    ensures var r := SortResult(fs.root, old(files[..]), sortKey, reverse);
      && (r.Ok? ==> err.None? && files[..] == r.value)
      && (r.Err? ==> err == Some(r.error) && files[..] == old(files[..]))
  {
    var r := SortResult(fs.root, files[..], sortKey, reverse);
    if r.Ok? {
      var sorted := r.value;
      SortPermutes(files[..], KeyFn(fs.root, sortKey), reverse);
      assert |sorted| == files.Length;
      forall i | 0 <= i < files.Length {
        files[i] := sorted[i];
      }
      err := None;
    } else {
      err := Some(r.error);
    }
  }

  /** The sorted list is a permutation of the given one. */
  lemma SorterPermutes(n: Node, files: seq<Path>, sortKey: string, reverse: bool)
    requires SortResult(n, files, sortKey, reverse).Ok?
    ensures multiset(SortResult(n, files, sortKey, reverse).value) == multiset(files)
  {
    if KnownSortKey(sortKey) { SortPermutes(files, KeyFn(n, sortKey), reverse); }
  }

  /** The sorted list is ordered by the chosen key: non-decreasing, or
      non-increasing with `reverse`. */
  lemma SorterOrdered(n: Node, files: seq<Path>, sortKey: string, reverse: bool)
    requires KnownSortKey(sortKey) && SortResult(n, files, sortKey, reverse).Ok?
    ensures var r := SortResult(n, files, sortKey, reverse).value;
      forall i, j :: 0 <= i < j < |r| ==> Before(SortKeyOf(n, sortKey, r[i]), SortKeyOf(n, sortKey, r[j]), reverse)
  {
    SortOrdered(files, KeyFn(n, sortKey), reverse);
  }

  /** Entries with equal keys keep their relative order. */
  lemma SorterStable(n: Node, files: seq<Path>, sortKey: string, reverse: bool, k: Key)
    requires SortResult(n, files, sortKey, reverse).Ok?
    ensures WithKey(SortResult(n, files, sortKey, reverse).value, KeyFn(n, sortKey), k)
         == WithKey(files, KeyFn(n, sortKey), k)
  {
    if KnownSortKey(sortKey) { SortStable(files, KeyFn(n, sortKey), reverse, k); }
  }

  /** Sorting the sorted list again with the same settings changes nothing. */
  lemma SorterIdempotent(n: Node, files: seq<Path>, sortKey: string, reverse: bool)
    requires SortResult(n, files, sortKey, reverse).Ok?
    ensures var r := SortResult(n, files, sortKey, reverse).value;
      SortResult(n, r, sortKey, reverse) == Ok(r)
  {
    var r := SortResult(n, files, sortKey, reverse).value;
    if KnownSortKey(sortKey) {
      SortIdempotent(files, KeyFn(n, sortKey), reverse);
      if NeedsStat(sortKey) {
        SortPermutes(files, KeyFn(n, sortKey), reverse);
        forall j | 0 <= j < |r| ensures Exists(n, r[j]) {
          assert r[j] in multiset(r);
          var m :| 0 <= m < |files| && files[m] == r[j];
        }
      }
    }
  }

  // --------------------------------------------------------------- Renamer

  datatype RenameError =
    | BadPattern(formatError: FormatError)   // `str.format` raised
    | IllegalName(name: string)              // `with_name` or the system refused the name
    | OsFailure(osError: OsError)            // `rename` raised

  /** What happened to one entry of a rename batch. */
  datatype RenameOutcome =
    | Renamed(target: Path)
    | Skipped(target: Path)   // the target exists
    | Failed(reason: RenameError)

  /** The new name of the entry at position `i`: the pattern with the 1-based
      index, the entry's stem and its suffix substituted. It fails exactly
      when the pattern does not parse, for every entry alike. */
  function TargetName(pattern: string, i: nat, src: Path): (r: Result<string, FormatError>)
    ensures r.Ok? <==> Parse(pattern).Ok?
    ensures r.Err? ==> r.error == Parse(pattern).error
    ensures r.Ok? ==> r.value == Render(Parse(pattern).value, i + 1, Stem(Name(src)), Suffix(Name(src)))
  {
    Format(pattern, i + 1, Stem(Name(src)), Suffix(Name(src)))
  }

  /** `Path.exists()`. Every entry of the tree exists; a last component
      ".." names the directory above, so it exists exactly when the
      directory it is in does; any other path exists exactly when the tree
      has an entry there. */
  function TargetExists(n: Node, t: Path): (r: bool)
    ensures Exists(n, t) ==> r
    ensures t != [] && Name(t) == ".." ==> (r <==> IsDir(n, Parent(t)))
    ensures t == [] || Name(t) != ".." ==> (r <==> Exists(n, t))
  {
    if t != [] && Name(t) == ".." then
      assert Exists(n, t) ==> IsDir(n, Parent(t)) by { if Exists(n, t) { ParentIsDir(n, t); } }
      IsDir(n, Parent(t))
    else Exists(n, t)
  }

  /** The tree after one entry of a rename batch, and what happened to the
      entry. */
  datatype StepResult = StepResult(root: Node, outcome: RenameOutcome)

  /** The path an entry is to be renamed to, or why naming it raised. */
  function RenameTarget(pattern: string, i: nat, src: Path): (r: Result<Path, RenameError>)
    ensures r.Ok? ==> src != [] && r.value != [] && Parent(r.value) == Parent(src)
  {
    match TargetName(pattern, i, src)
    case Err(e) => Err(BadPattern(e))
    case Ok(name) =>
      if src == [] || !ValidName(name) then Err(IllegalName(name))
      else Ok(Parent(src) + [name])
  }

  /** For a pattern written as the tokens `t`, the target of the entry at
      position `i` is the pattern with the 1-based index `i + 1`, the entry's
      stem and its suffix substituted, in the entry's own directory, unless
      that is not a legal name. */
  lemma RenameTargetSubstitutes(t: seq<Token>, i: nat, src: Path)
    requires src != []
    ensures var name := Render(t, i + 1, Stem(Name(src)), Suffix(Name(src)));
      RenameTarget(Print(t), i, src)
        == if ValidName(name) then Ok(Parent(src) + [name]) else Err(IllegalName(name))
  {
    ParsePrint(t);
  }

  /** Renames `src` to `target` unless `target` exists. */
  function RenameTo(n: Node, src: Path, target: Path): (r: StepResult)
    requires src != [] && target != [] && Parent(target) == Parent(src)
    ensures r.outcome.Renamed? || r.outcome.Skipped? ==> r.outcome.target == target
  {
    if TargetExists(n, target) then StepResult(n, Skipped(target))
    else if !Exists(n, src) then StepResult(n, Failed(OsFailure(SourceMissing)))
    else
      ParentIsDir(n, src);
      StepResult(Rename(n, src, target), Renamed(target))
  }

  /** One iteration of the loop in `Renamer.execute`. Every exception is
      caught for the entry: it fails exactly when its new name cannot be
      computed, or when its target is free but the entry itself is gone;
      otherwise it is skipped or renamed to the computed target. */
  function RenameStep(n: Node, pattern: string, i: nat, src: Path): (r: StepResult)
    ensures var target := RenameTarget(pattern, i, src);
      r.outcome.Failed? <==> target.Err? || (!TargetExists(n, target.value) && !Exists(n, src))
    ensures var target := RenameTarget(pattern, i, src);
      target.Err? ==> r == StepResult(n, Failed(target.error))
    ensures !r.outcome.Failed? ==> r.outcome.target == RenameTarget(pattern, i, src).value
  {
    match RenameTarget(pattern, i, src)
    case Err(e) => StepResult(n, Failed(e))
    case Ok(target) => RenameTo(n, src, target)
  }

  datatype RenameRun = RenameRun(root: Node, outcomes: seq<RenameOutcome>)

  /** Runs `step` on every entry in order, each on the tree the entries
      before it left, collecting one outcome per entry. */
  function RunAll(n: Node, files: seq<Path>, step: (Node, nat, Path) -> StepResult): (r: RenameRun)
    ensures |r.outcomes| == |files|
    decreases |files|
  {
    if files == [] then RenameRun(n, [])
    else
      var prev := RunAll(n, files[..|files| - 1], step);
      var last := step(prev.root, |files| - 1, files[|files| - 1]);
      RenameRun(last.root, prev.outcomes + [last.outcome])
  }

  /** The outcomes of a prefix of a run are a prefix of its outcomes. */
  lemma {:induction false} RunPrefix(n: Node, files: seq<Path>, step: (Node, nat, Path) -> StepResult, k: nat)
    requires k <= |files|
    ensures RunAll(n, files[..k], step).outcomes == RunAll(n, files, step).outcomes[..k]
    decreases |files|
  {
    if k < |files| {
      var init := files[..|files| - 1];
      RunPrefix(n, init, step, k);
      assert init[..k] == files[..k];
    } else {
      assert files[..k] == files;
    }
  }

  /** Entry `i`'s outcome is that of its step on the tree the entries before
      it left. */
  lemma RunOutcome(n: Node, files: seq<Path>, step: (Node, nat, Path) -> StepResult, i: nat)
    requires i < |files|
    ensures RunAll(n, files, step).outcomes[i] == step(RunAll(n, files[..i], step).root, i, files[i]).outcome
  {
    RunPrefix(n, files, step, i + 1);
    var upto := files[..i + 1];
    assert upto[..i] == files[..i] && upto[i] == files[i];
  }

  /** A step that leaves the tree alone and always reports `o` gives a run
      that changes nothing and reports `o` for every entry. */
  lemma {:induction false} RunConstant(n: Node, files: seq<Path>, step: (Node, nat, Path) -> StepResult, o: RenameOutcome)
    requires forall m, i, f :: step(m, i, f) == StepResult(m, o)
    ensures RunAll(n, files, step) == RenameRun(n, seq(|files|, _ => o))
    decreases |files|
  {
    if files != [] {
      RunConstant(n, files[..|files| - 1], step, o);
    }
  }

  function RenameStepOf(pattern: string): (Node, nat, Path) -> StepResult
  {
    (m: Node, i: nat, f: Path) => RenameStep(m, pattern, i, f)
  }

  /** The whole loop of `Renamer.execute`. */
  function RenameAll(n: Node, pattern: string, files: seq<Path>): RenameRun
  {
    RunAll(n, files, RenameStepOf(pattern))
  }

  /** The run over one more entry adds that entry's step. */
  lemma RenameAllSnoc(n: Node, pattern: string, files: seq<Path>, i: nat)
    requires i < |files|
    ensures var prev := RenameAll(n, pattern, files[..i]);
      var step := RenameStep(prev.root, pattern, i, files[i]);
      RenameAll(n, pattern, files[..i + 1]) == RenameRun(step.root, prev.outcomes + [step.outcome])
  {
    assert files[..i + 1][..i] == files[..i];
  }

  /** `Renamer.execute`. */
  method ExecuteRenamer(fs: FileSystem, files: seq<Path>, pattern: string)
    returns (outcomes: seq<RenameOutcome>)
    modifies fs
    ensures RenameRun(fs.root, outcomes) == RenameAll(old(fs.root), pattern, files)
  {
    outcomes := [];
    for i := 0 to |files|
      invariant RenameRun(fs.root, outcomes) == RenameAll(old(fs.root), pattern, files[..i])
    {
      RenameAllSnoc(old(fs.root), pattern, files, i);
      ghost var step := RenameStep(fs.root, pattern, i, files[i]);
      var file := files[i];
      var outcome: RenameOutcome;
      var newPath := RenameTarget(pattern, i, file);
      if newPath.Err? {
        outcome := Failed(newPath.error);
      } else if TargetExists(fs.root, newPath.value) {
        outcome := Skipped(newPath.value);
      } else {
        var err := fs.Rename(file, newPath.value);
        outcome := if err.None? then Renamed(newPath.value) else Failed(OsFailure(err.value));
      }
      assert fs.root == step.root && outcome == step.outcome;
      outcomes := outcomes + [outcome];
    }
    assert files[..|files|] == files;
  }

  /** The batch attempts every entry, in order: there is one outcome per
      entry, and the outcome of entry `i` is that of its step on the tree the
      entries before it left. */
  lemma RenameAttemptsEvery(n: Node, pattern: string, files: seq<Path>, i: nat)
    requires i < |files|
    ensures |RenameAll(n, pattern, files).outcomes| == |files|
    ensures RenameAll(n, pattern, files).outcomes[i]
         == RenameStep(RenameAll(n, pattern, files[..i]).root, pattern, i, files[i]).outcome
  {
    RunOutcome(n, files, RenameStepOf(pattern), i);
  }

  /** A renamed or skipped entry's target is the computed name, placed in
      the entry's own directory. */
  lemma RenameTargetInParent(pattern: string, i: nat, src: Path)
    requires RenameTarget(pattern, i, src).Ok?
    ensures src != [] && TargetName(pattern, i, src).Ok? && ValidName(TargetName(pattern, i, src).value)
    ensures RenameTarget(pattern, i, src).value == Parent(src) + [TargetName(pattern, i, src).value]
  {
  }

  /** A rename never overwrites: an entry with a computed target is skipped
      exactly when that target exists, and only an entry whose target was
      free is renamed. The tree changes only on a rename. */
  lemma RenameNeverOverwrites(n: Node, pattern: string, i: nat, src: Path)
    ensures var step := RenameStep(n, pattern, i, src);
      && (step.outcome.Skipped? ==> TargetExists(n, step.outcome.target) && step.root == n)
      && (step.outcome.Failed? ==> step.root == n)
      && (step.outcome.Renamed? ==> !TargetExists(n, step.outcome.target) && Exists(n, src))
    ensures var target := RenameTarget(pattern, i, src);
      target.Ok? ==> (RenameStep(n, pattern, i, src).outcome.Skipped? <==> TargetExists(n, target.value))
  {
  }

  /** Renaming an entry to its own name is a skip, not a rename. */
  lemma RenameToSelfSkipped(n: Node, pattern: string, i: nat, src: Path)
    requires src != [] && Exists(n, src) && TargetName(pattern, i, src) == Ok(Name(src))
    requires ValidName(Name(src))
    ensures RenameStep(n, pattern, i, src).outcome == Skipped(src)
  {
    assert Parent(src) + [Name(src)] == src;
    if Name(src) == ".." { ParentIsDir(n, src); }
  }

  /** A successful rename moves the entry, with its content, from the source
      name to the target name in the same directory, which keeps its
      number of entries; every path unrelated to the two names is untouched. */
  lemma RenameMovesEntry(n: Node, src: Path, t: Path, q: Path)
    requires src != [] && t != [] && Parent(t) == Parent(src)
    requires RenameTo(n, src, t).outcome.Renamed?
    ensures var m := RenameTo(n, src, t).root;
      && Lookup(m, t) == Lookup(n, src)
      && !Exists(m, src)
      && IsDir(n, Parent(src)) && IsDir(m, Parent(src))
      && |Children(m, Parent(src))| == |Children(n, Parent(src))|
      && ((!IsPrefix(src, q) && !IsPrefix(t, q) && !IsPrefix(q, Parent(src)))
            ==> Lookup(m, q) == Lookup(n, q))
  {
    ParentIsDir(n, src);
    assert !Exists(n, t);
    RenameEffect(n, src, t, q);
    RenameEffect(n, src, t, t);
    RenameEffect(n, src, t, src);
    RenameKeepsCount(n, src, t);
    assert t[|t|..] == [] && src + [] == src;
  }

  /** A bad pattern fails every entry and changes nothing, and the batch
      still goes through all of them. */
  lemma RenameBadPattern(n: Node, pattern: string, files: seq<Path>)
    requires Parse(pattern).Err?
    ensures RenameAll(n, pattern, files)
         == RenameRun(n, seq(|files|, _ => Failed(BadPattern(Parse(pattern).error))))
  {
    var o := Failed(BadPattern(Parse(pattern).error));
    forall m, i, f ensures RenameStepOf(pattern)(m, i, f) == StepResult(m, o) {
      assert TargetName(pattern, i, f) == Err(Parse(pattern).error);
    }
    RunConstant(n, files, RenameStepOf(pattern), o);
  }

  lemma PrefixOfExisting(n: Node, p: Path, q: Path)
    requires IsPrefix(p, q) && Exists(n, q)
    ensures Exists(n, p)
  {
    if p != q { AncestorIsDir(n, p, q); }
  }

  /** One rename step keeps an existing entry that is neither the step's
      entry, nor inside it, nor above it. */
  lemma RenameStepKeeps(n: Node, pattern: string, i: nat, src: Path, q: Path)
    requires Exists(n, q) && !IsPrefix(q, src) && !IsPrefix(src, q)
    ensures Lookup(RenameStep(n, pattern, i, src).root, q) == Lookup(n, q)
  {
    var target := RenameTarget(pattern, i, src);
    if target.Ok? && RenameTo(n, src, target.value).outcome.Renamed? {
      var t := target.value;
      assert !TargetExists(n, t);
      assert !IsPrefix(t, q) by {
        if IsPrefix(t, q) {
          PrefixOfExisting(n, t, q);
          ParentIsDir(n, t);
          assert false;
        }
      }
      assert !IsPrefix(q, Parent(src)) by { PrefixTransitive(q, Parent(src), src); }
      RenameMovesEntry(n, src, t, q);
    }
  }

  /** Across the whole batch, an existing entry that is neither one of the
      listed entries, nor inside one, nor above one, ends with exactly what
      it had: nothing is ever renamed onto it. */
  lemma {:induction false} RenameKeepsBystanders(n: Node, pattern: string, files: seq<Path>, q: Path)
    requires Exists(n, q)
    requires forall j :: 0 <= j < |files| ==> !IsPrefix(q, files[j]) && !IsPrefix(files[j], q)
    ensures Lookup(RenameAll(n, pattern, files).root, q) == Lookup(n, q)
    decreases |files|
  {
    if files != [] {
      var init := files[..|files| - 1];
      var src := files[|files| - 1];
      RenameKeepsBystanders(n, pattern, init, q);
      var before := RenameAll(n, pattern, init).root;
      assert RenameAll(n, pattern, files).root == RenameStep(before, pattern, |files| - 1, src).root;
      RenameStepKeeps(before, pattern, |files| - 1, src, q);
    }
  }

  // ------------------------------------------------------------- Organizer

  /** The subdirectory the `extension` strategy files an entry under: its
      suffix without the dot, or "no_extension". */
  function ExtensionFolder(name: string): (r: string)
    ensures r != "" && r != "." && r != ".." && '.' !in r
    ensures '/' in r ==> '/' in name
    ensures !HasSuffix(name) ==> r == "no_extension"
    ensures HasSuffix(name) ==> r != name && "." + r == Suffix(name)
    ensures r == name <==> name == "no_extension"
  {
    assert name == "no_extension" ==> '.' !in name;
    if Suffix(name) != "" then
      var ext := Suffix(name)[1..];
      assert ext == name[|name| - |ext|..];
      assert name[|name| - |ext| - 1] == '.';
      ext
    else
      "no_extension"
  }

  /** The state after some entries, and the error that stopped the loop. */
  datatype Progress = Progress(root: Node, error: Option<OsError>)

  /** Creates `dest` if needed, then moves `src` into it; the error of
      whichever call raised. A directory created before a failing move
      stays. Only `mkdir` raises `FileExistsError`, for an entry that is
      not a directory in the folder's place; whenever nothing raised the
      folder is a directory afterwards. */
  function MoveToFolder(n: Node, src: Path, dest: Path, dirSize: nat, now: int): (r: Progress)
    ensures r.error == Some(FileExists) <==> Exists(n, dest) && !IsDir(n, dest)
    ensures r.error.None? ==> IsDir(r.root, dest)
  {
    match MakeDir(n, dest, dirSize, now)
    case Err(e) => Progress(n, Some(e))
    case Ok(n1) =>
      MakeDirIdempotent(n, dest, dirSize, now);
      match ShutilMove(n1, src, dest)
      case Err(e) => Progress(n1, Some(e))
      case Ok(n2) => Progress(n2, None)
  }

  predicate KnownStrategy(strategy: string)
  {
    strategy == "extension" || strategy == "date"
  }

  /** The folder an entry goes to. For `date` it is the entry's year and
      month in local time, given by `monthOf`. It is always a sibling of
      the entry; with `extension` it is the entry itself only for an entry
      named `no_extension`. */
  function FolderOf(n: Node, src: Path, strategy: string, monthOf: int -> string): (r: Path)
    ensures r != [] && Parent(r) == Parent(src)
    ensures src != [] ==> |r| == |src|
    ensures strategy != "date" && src != [] ==> (r == src <==> Name(src) == "no_extension")
  {
    Parent(src) + [if strategy == "date" then monthOf(MTimeOf(n, src)) else ExtensionFolder(Name(src))]
  }

  /** One iteration of the loop in `Organizer.execute`: a directory is
      skipped and changes nothing; with `date`, `stat` raises first for a
      missing entry. When nothing raised for an entry that is not a
      directory, its folder is a directory afterwards. */
  function OrganizeStep(n: Node, src: Path, strategy: string, monthOf: int -> string, dirSize: nat, now: int): (r: Progress)
    ensures IsDir(n, src) ==> r == Progress(n, None)
    ensures !IsDir(n, src) && r.error.None? ==> IsDir(r.root, FolderOf(n, src, strategy, monthOf))
  {
    if IsDir(n, src) then Progress(n, None)
    else if strategy == "date" && !Exists(n, src) then Progress(n, Some(SourceMissing))
    else MoveToFolder(n, src, FolderOf(n, src, strategy, monthOf), dirSize, now)
  }

  /** Runs `step` on every entry in order until one raises. */
  function RunUntilError(n: Node, files: seq<Path>, step: (Node, Path) -> Progress): Progress
    decreases |files|
  {
    if files == [] then Progress(n, None)
    else
      var prev := RunUntilError(n, files[..|files| - 1], step);
      if prev.error.Some? then prev else step(prev.root, files[|files| - 1])
  }

  /** Once an entry raised, the entries after it change nothing. */
  lemma {:induction false} RunStops(n: Node, files: seq<Path>, step: (Node, Path) -> Progress, k: nat)
    requires k <= |files| && RunUntilError(n, files[..k], step).error.Some?
    ensures RunUntilError(n, files, step) == RunUntilError(n, files[..k], step)
    decreases |files|
  {
    if k < |files| {
      var init := files[..|files| - 1];
      assert init[..k] == files[..k];
      RunStops(n, init, step, k);
    } else {
      assert files[..k] == files;
    }
  }

  function OrganizeStepOf(strategy: string, monthOf: int -> string, dirSize: nat, now: int): (Node, Path) -> Progress
  {
    (m: Node, f: Path) => OrganizeStep(m, f, strategy, monthOf, dirSize, now)
  }

  /** The whole of `Organizer.execute`: an unknown strategy matches no
      branch; otherwise the loop stops at the first error, which the
      operation does not catch. */
  function OrganizeAll(n: Node, files: seq<Path>, strategy: string, monthOf: int -> string, dirSize: nat, now: int): Progress
  {
    if KnownStrategy(strategy) then RunUntilError(n, files, OrganizeStepOf(strategy, monthOf, dirSize, now))
    else Progress(n, None)
  }

  /** One iteration of the loop in `Organizer.execute`: skips a directory,
      otherwise creates the entry's folder and moves the entry into it. */
  method OrganizeEntry(fs: FileSystem, file: Path, strategy: string, monthOf: int -> string, dirSize: nat, now: int)
    returns (err: Option<OsError>)
    modifies fs
    ensures Progress(fs.root, err) == OrganizeStep(old(fs.root), file, strategy, monthOf, dirSize, now)
  {
    err := None;
    if IsDir(fs.root, file) { return; }
    if strategy == "date" && !Exists(fs.root, file) {
      err := Some(SourceMissing);
      return;
    }
    var destDir := FolderOf(fs.root, file, strategy, monthOf);
    err := fs.MakeDirExistOk(destDir, dirSize, now);
    if err.Some? { return; }
    err := fs.Move(file, destDir);
  }

  /** Running until an error over one more entry: the entry's step, unless
      an earlier entry has already raised. */
  lemma RunUntilErrorSnoc(n: Node, files: seq<Path>, step: (Node, Path) -> Progress, i: nat)
    requires i < |files|
    ensures var prev := RunUntilError(n, files[..i], step);
      RunUntilError(n, files[..i + 1], step)
        == if prev.error.Some? then prev else step(prev.root, files[i])
  {
    assert files[..i + 1][..i] == files[..i];
  }

  /** `Organizer.execute`. `monthOf` stands for formatting a timestamp as
      year and month in local time, and `dirSize`, `now` for the metadata
      the system gives a new directory. */
  method ExecuteOrganizer(fs: FileSystem, files: seq<Path>, strategy: string, monthOf: int -> string, dirSize: nat, now: int)
    returns (err: Option<OsError>)
    modifies fs
    ensures Progress(fs.root, err) == OrganizeAll(old(fs.root), files, strategy, monthOf, dirSize, now)
  {
    err := None;
    if !KnownStrategy(strategy) { return; }
    ghost var step := OrganizeStepOf(strategy, monthOf, dirSize, now);
    for i := 0 to |files|
      invariant err.None?
      invariant Progress(fs.root, None) == RunUntilError(old(fs.root), files[..i], step)
    {
      RunUntilErrorSnoc(old(fs.root), files, step, i);
      err := OrganizeEntry(fs, files[i], strategy, monthOf, dirSize, now);
      if err.Some? {
        RunStops(old(fs.root), files, step, i + 1);
        return;
      }
    }
    assert files[..|files|] == files;
  }

  /** The organizer stops with `FileExistsError` exactly when an entry
      that is not a directory sits where the folder of a non-directory
      should be. */
  lemma OrganizeFolderBlocked(n: Node, src: Path, strategy: string, monthOf: int -> string, dirSize: nat, now: int)
    ensures var dest := FolderOf(n, src, strategy, monthOf);
      OrganizeStep(n, src, strategy, monthOf, dirSize, now).error == Some(FileExists) <==>
        !IsDir(n, src) && (strategy != "date" || Exists(n, src)) && Exists(n, dest) && !IsDir(n, dest)
  {
  }

  /** A folder that exists already is not an error: a file whose folder is
      a directory, with the file's name free in it, is moved into it
      without error and no directory is created. */
  lemma OrganizeIntoExistingFolder(n: Node, src: Path, strategy: string, monthOf: int -> string, dirSize: nat, now: int)
    requires IsFile(n, src)
    requires IsDir(n, FolderOf(n, src, strategy, monthOf))
    requires !Exists(n, FolderOf(n, src, strategy, monthOf) + [Name(src)])
    ensures src != [] && !IsPrefix(src, FolderOf(n, src, strategy, monthOf))
    ensures OrganizeStep(n, src, strategy, monthOf, dirSize, now)
      == Progress(MoveInto(n, src, FolderOf(n, src, strategy, monthOf)), None)
  {
    var dest := FolderOf(n, src, strategy, monthOf);
    assert src != [] by { assert Lookup(n, []) == Some(n); }
    assert src != dest;
    assert |src| == |dest|;
  }

  /** A folder that does not exist yet is created: a file of a directory
      tree whose folder is missing is moved into a new directory without
      error. */
  lemma OrganizeIntoNewFolder(n: Node, src: Path, strategy: string, monthOf: int -> string, dirSize: nat, now: int)
    requires n.Dir? && IsFile(n, src)
    requires !Exists(n, FolderOf(n, src, strategy, monthOf))
    ensures OrganizeStep(n, src, strategy, monthOf, dirSize, now).error.None?
  {
    var dest := FolderOf(n, src, strategy, monthOf);
    var empty := Dir(dirSize, now, map[]);
    assert src != [] by { assert Lookup(n, []) == Some(n); }
    ParentIsDir(n, src);
    assert dest == Parent(src) + [Name(dest)];
    assert src != dest && |src| == |dest|;
    LookupSetChild(n, Parent(src), Name(dest), Some(empty), src);
    var slot := dest + [Name(src)];
    assert slot[|Parent(src)| + 1..] == [Name(src)];
    LookupSetChild(n, Parent(src), Name(dest), Some(empty), slot);
  }

  /** A file the organizer handles without error now sits, with its
      content, under the folder for it in its own directory, and its old
      path is gone. */
  lemma OrganizeMovesFile(n: Node, src: Path, strategy: string, monthOf: int -> string, dirSize: nat, now: int)
    requires IsFile(n, src)
    requires OrganizeStep(n, src, strategy, monthOf, dirSize, now).error.None?
    ensures var m := OrganizeStep(n, src, strategy, monthOf, dirSize, now).root;
      var dest := FolderOf(n, src, strategy, monthOf);
      && src != []
      && IsDir(m, dest)
      && Lookup(m, dest + [Name(src)]) == Lookup(n, src)
      && !Exists(m, src)
  {
    var dest := FolderOf(n, src, strategy, monthOf);
    var x := Name(src);
    assert src != [] by { assert Lookup(n, []) == Some(n); }
    assert src == Parent(src) + [x];
    MakeDirIdempotent(n, dest, dirSize, now);
    var n1 := MakeDir(n, dest, dirSize, now).value;
    assert dest != src;
    assert Lookup(n1, src) == Lookup(n, src) by {
      if !IsDir(n, dest) {
        ParentIsDir(n, src);
        LookupSetChild(n, Parent(dest), Name(dest), Some(Dir(dirSize, now, map[])), src);
      }
    }
    assert !IsPrefix(src, dest);
    MoveIntoTarget(n1, src, dest, []);
    MoveIntoSource(n1, src, dest, src);
    MoveIntoFrame(n1, src, dest, dest);
    assert src + [] == src && dest + [Name(src)] + [] == dest + [Name(src)];
  }

  /** Organizing a file can be undone: moving it back gives the tree as it
      was after its folder was made (the tree before the step, when the
      folder already existed). */
  lemma OrganizeUndo(n: Node, src: Path, strategy: string, monthOf: int -> string, dirSize: nat, now: int)
    requires IsFile(n, src)
    requires OrganizeStep(n, src, strategy, monthOf, dirSize, now).error.None?
    ensures var m := OrganizeStep(n, src, strategy, monthOf, dirSize, now).root;
      var dest := FolderOf(n, src, strategy, monthOf);
      && src != [] && Exists(m, dest + [Name(src)]) && IsDir(m, Parent(src))
      && !IsPrefix(dest + [Name(src)], Parent(src))
      && MoveInto(m, dest + [Name(src)], Parent(src)) == After(MakeDir(n, dest, dirSize, now), n)
      && (IsDir(n, dest) ==> MoveInto(m, dest + [Name(src)], Parent(src)) == n)
  {
    OrganizeMovesFile(n, src, strategy, monthOf, dirSize, now);
    var dest := FolderOf(n, src, strategy, monthOf);
    MakeDirIdempotent(n, dest, dirSize, now);
    var n1 := MakeDir(n, dest, dirSize, now).value;
    assert src == Parent(src) + [Name(src)];
    assert Lookup(n1, src) == Lookup(n, src) by {
      if !IsDir(n, dest) {
        ParentIsDir(n, src);
        LookupSetChild(n, Parent(dest), Name(dest), Some(Dir(dirSize, now, map[])), src);
      }
    }
    assert !IsPrefix(src, dest);
    MoveIntoUndo(n1, src, dest);
  }

  /** Where the organizer puts `src`. */
  function Placed(n: Node, src: Path, strategy: string, monthOf: int -> string): Path
  {
    FolderOf(n, src, strategy, monthOf) + [Name(src)]
  }

  /** What else a successful step on a file changes: its folder was no
      file, and a path that is not under the old or new place of the file
      and is not the folder or above it keeps its entry. */
  lemma OrganizeStepFrame(n: Node, src: Path, strategy: string, monthOf: int -> string, dirSize: nat, now: int, q: Path)
    requires IsFile(n, src)
    requires OrganizeStep(n, src, strategy, monthOf, dirSize, now).error.None?
    ensures var dest := FolderOf(n, src, strategy, monthOf);
      IsDir(n, dest) || !Exists(n, dest)
    ensures var m := OrganizeStep(n, src, strategy, monthOf, dirSize, now).root;
      var dest := FolderOf(n, src, strategy, monthOf);
      !IsPrefix(src, q) && !IsPrefix(dest + [Name(src)], q) && !IsPrefix(q, dest) ==> Lookup(m, q) == Lookup(n, q)
  {
    var dest := FolderOf(n, src, strategy, monthOf);
    var x := Name(src);
    assert src != [] by { assert Lookup(n, []) == Some(n); }
    assert src == Parent(src) + [x];
    MakeDirIdempotent(n, dest, dirSize, now);
    var n1 := MakeDir(n, dest, dirSize, now).value;
    assert dest != src;
    assert Parent(dest) == Parent(src);
    MakeDirFrame(n, dest, dirSize, now, src);
    MakeDirFrame(n, dest, dirSize, now, q);
    assert IsPrefix(q, Parent(src)) ==> IsPrefix(q, dest) by { PrefixTransitive(q, Parent(src), dest); }
    MoveIntoFrame(n1, src, dest, q);
  }

  /** `files` are distinct files of directory `d`, as a listing gives. */
  ghost predicate SiblingFiles(n: Node, d: Path, files: seq<Path>)
  {
    && (forall i :: 0 <= i < |files| ==> files[i] != [] && Parent(files[i]) == d && IsFile(n, files[i]))
    && (forall i, j :: 0 <= i < j < |files| ==> files[i] != files[j])
  }

  /** The first `k` entries sit at their places in `m`. */
  ghost predicate PlacedBefore(m: Node, n: Node, all: seq<Path>, k: nat, strategy: string, monthOf: int -> string)
    requires k <= |all|
  {
    forall j :: 0 <= j < k ==> Lookup(m, Placed(n, all[j], strategy, monthOf)) == Lookup(n, all[j])
  }

  /** The entries from `k` on are where they were in `n`. */
  ghost predicate UntouchedFrom(m: Node, n: Node, all: seq<Path>, k: nat)
    requires k <= |all|
  {
    forall i :: k <= i < |all| ==> Lookup(m, all[i]) == Lookup(n, all[i])
  }

  /** No folder of the first `k` entries is the path of a later entry. */
  ghost predicate FoldersClear(n: Node, all: seq<Path>, k: nat, strategy: string, monthOf: int -> string)
    requires k <= |all|
  {
    forall j, i :: 0 <= j < k <= i < |all| ==> FolderOf(n, all[j], strategy, monthOf) != all[i]
  }

  /** A successful step on the file `g` of `d` keeps the entry of a path
      two levels under `d` that is neither in the folder `g` nor under `g`. */
  lemma StepKeepsPlaced(p: Node, d: Path, g: Path, c: string, x: string, strategy: string, monthOf: int -> string, dirSize: nat, now: int)
    requires IsFile(p, g) && g == d + [Name(g)] && x != Name(g) && d + [c] != g
    requires OrganizeStep(p, g, strategy, monthOf, dirSize, now).error.None?
    ensures Lookup(OrganizeStep(p, g, strategy, monthOf, dirSize, now).root, d + [c, x]) == Lookup(p, d + [c, x])
  {
    var q := d + [c, x];
    var dest := FolderOf(p, g, strategy, monthOf);
    assert dest == d + [dest[|d|]];
    assert !IsPrefix(g, q) by { assert q[..|g|] == d + [c]; }
    assert !IsPrefix(dest + [Name(g)], q) by {
      assert |dest + [Name(g)]| == |q| && (dest + [Name(g)])[|d| + 1] != q[|d| + 1];
    }
    assert !IsPrefix(q, dest);
    OrganizeStepFrame(p, g, strategy, monthOf, dirSize, now, q);
  }

  /** A successful step on the file `g` of `d` keeps every other file of
      `d`, and its folder is none of them. */
  lemma StepKeepsSibling(p: Node, d: Path, g: Path, h: Path, strategy: string, monthOf: int -> string, dirSize: nat, now: int)
    requires IsFile(p, g) && g == d + [Name(g)]
    requires IsFile(p, h) && h == d + [Name(h)] && h != g
    requires OrganizeStep(p, g, strategy, monthOf, dirSize, now).error.None?
    ensures Lookup(OrganizeStep(p, g, strategy, monthOf, dirSize, now).root, h) == Lookup(p, h)
    ensures FolderOf(p, g, strategy, monthOf) != h
  {
    var dest := FolderOf(p, g, strategy, monthOf);
    assert dest == d + [dest[|d|]];
    OrganizeStepFrame(p, g, strategy, monthOf, dirSize, now, h);
  }

  /** What a successful step on the file `g` of `d` leaves for the
      induction below: `g` sits at its place, every path two levels under
      `d` outside the folder's slot for `g` and outside `g` is kept, and
      every other file of `d` is kept and is not the folder. */
  lemma StepEffects(p: Node, d: Path, g: Path, strategy: string, monthOf: int -> string, dirSize: nat, now: int)
    requires IsFile(p, g) && g == d + [Name(g)]
    requires OrganizeStep(p, g, strategy, monthOf, dirSize, now).error.None?
    ensures var m := OrganizeStep(p, g, strategy, monthOf, dirSize, now).root;
      Lookup(m, FolderOf(p, g, strategy, monthOf) + [Name(g)]) == Lookup(p, g)
    ensures var m := OrganizeStep(p, g, strategy, monthOf, dirSize, now).root;
      forall q :: |q| == |d| + 2 && q[..|d| + 1] != g && q[|d| + 1] != Name(g) && q[..|d|] == d ==>
        Lookup(m, q) == Lookup(p, q)
    ensures var m := OrganizeStep(p, g, strategy, monthOf, dirSize, now).root;
      forall h :: IsFile(p, h) && h == d + [Name(h)] && h != g ==>
        Lookup(m, h) == Lookup(p, h) && FolderOf(p, g, strategy, monthOf) != h
  {
    OrganizeMovesFile(p, g, strategy, monthOf, dirSize, now);
    forall q | |q| == |d| + 2 && q[..|d| + 1] != g && q[|d| + 1] != Name(g) && q[..|d|] == d
      ensures Lookup(OrganizeStep(p, g, strategy, monthOf, dirSize, now).root, q) == Lookup(p, q)
    {
      var c, x := q[|d|], q[|d| + 1];
      assert q == d + [c, x];
      assert d + [c] == q[..|d| + 1];
      StepKeepsPlaced(p, d, g, c, x, strategy, monthOf, dirSize, now);
    }
    forall h | IsFile(p, h) && h == d + [Name(h)] && h != g
      ensures Lookup(OrganizeStep(p, g, strategy, monthOf, dirSize, now).root, h) == Lookup(p, h)
      ensures FolderOf(p, g, strategy, monthOf) != h
    {
      StepKeepsSibling(p, d, g, h, strategy, monthOf, dirSize, now);
    }
  }

  /** The folder of an entry depends only on what the entry is. */
  lemma FolderOfSameEntry(n: Node, p: Node, src: Path, strategy: string, monthOf: int -> string)
    requires Lookup(p, src) == Lookup(n, src)
    ensures FolderOf(p, src, strategy, monthOf) == FolderOf(n, src, strategy, monthOf)
  {
    assert MTimeOf(p, src) == MTimeOf(n, src);
  }

  /** On any tree `m` with the effects `StepEffects` gives for the `k`-th
      entry, an earlier entry `j` stays at its place. */
  lemma PlacedOne(n: Node, p: Node, m: Node, d: Path, all: seq<Path>, k: nat, strategy: string, monthOf: int -> string, j: nat)
    requires j < k - 1 && k <= |all| && SiblingFiles(n, d, all)
    requires Lookup(p, Placed(n, all[j], strategy, monthOf)) == Lookup(n, all[j])
    requires FolderOf(n, all[j], strategy, monthOf) != all[k - 1]
    requires forall q :: |q| == |d| + 2 && q[..|d| + 1] != all[k - 1] && q[|d| + 1] != Name(all[k - 1]) && q[..|d|] == d ==>
      Lookup(m, q) == Lookup(p, q)
    ensures Lookup(m, Placed(n, all[j], strategy, monthOf)) == Lookup(n, all[j])
  {
    var f, g := all[j], all[k - 1];
    var q := Placed(n, f, strategy, monthOf);
    assert f == d + [Name(f)] && g == d + [Name(g)] && f != g;
    assert q == d + [q[|d|], Name(f)];
    assert q[..|d| + 1] == FolderOf(n, f, strategy, monthOf);
  }

  /** On any tree `m` with the effects `StepEffects` gives, the first `k`
      entries sit at their places. */
  lemma PlacedWith(n: Node, p: Node, m: Node, d: Path, all: seq<Path>, k: nat, strategy: string, monthOf: int -> string)
    requires 0 < k <= |all| && SiblingFiles(n, d, all)
    requires PlacedBefore(p, n, all, k - 1, strategy, monthOf)
    requires FoldersClear(n, all, k - 1, strategy, monthOf)
    requires Lookup(p, all[k - 1]) == Lookup(n, all[k - 1])
    requires Lookup(m, FolderOf(p, all[k - 1], strategy, monthOf) + [Name(all[k - 1])]) == Lookup(p, all[k - 1])
    requires forall q :: |q| == |d| + 2 && q[..|d| + 1] != all[k - 1] && q[|d| + 1] != Name(all[k - 1]) && q[..|d|] == d ==>
      Lookup(m, q) == Lookup(p, q)
    ensures PlacedBefore(m, n, all, k, strategy, monthOf)
  {
    FolderOfSameEntry(n, p, all[k - 1], strategy, monthOf);
    forall j | 0 <= j < k - 1
      ensures Lookup(m, Placed(n, all[j], strategy, monthOf)) == Lookup(n, all[j])
    {
      PlacedOne(n, p, m, d, all, k, strategy, monthOf, j);
    }
  }

  /** On any tree `m` with the effects `StepEffects` gives, the entries
      after the `k`-th are untouched, and no folder so far is one of them. */
  lemma UntouchedWith(n: Node, p: Node, m: Node, d: Path, all: seq<Path>, k: nat, strategy: string, monthOf: int -> string)
    requires 0 < k <= |all| && SiblingFiles(n, d, all)
    requires UntouchedFrom(p, n, all, k - 1)
    requires FoldersClear(n, all, k - 1, strategy, monthOf)
    requires FolderOf(p, all[k - 1], strategy, monthOf) == FolderOf(n, all[k - 1], strategy, monthOf)
    requires forall h :: IsFile(p, h) && h == d + [Name(h)] && h != all[k - 1] ==>
      Lookup(m, h) == Lookup(p, h) && FolderOf(p, all[k - 1], strategy, monthOf) != h
    ensures UntouchedFrom(m, n, all, k)
    ensures FoldersClear(n, all, k, strategy, monthOf)
  {
    forall i | k <= i < |all|
      ensures Lookup(m, all[i]) == Lookup(n, all[i])
      ensures FolderOf(n, all[k - 1], strategy, monthOf) != all[i]
    {
      assert all[i] == d + [Name(all[i])] && all[i] != all[k - 1];
      assert IsFile(p, all[i]);
    }
    forall j, i | 0 <= j < k <= i < |all|
      ensures FolderOf(n, all[j], strategy, monthOf) != all[i]
    {
      if j < k - 1 {
        assert FolderOf(n, all[j], strategy, monthOf) != all[i];
      }
    }
  }

  /** One step of the induction below: a successful step on the next entry. */
  lemma OrganizeAdvance(n: Node, p: Node, d: Path, all: seq<Path>, k: nat, strategy: string, monthOf: int -> string, dirSize: nat, now: int)
    requires 0 < k <= |all| && SiblingFiles(n, d, all)
    requires PlacedBefore(p, n, all, k - 1, strategy, monthOf) && UntouchedFrom(p, n, all, k - 1)
    requires FoldersClear(n, all, k - 1, strategy, monthOf)
    requires OrganizeStep(p, all[k - 1], strategy, monthOf, dirSize, now).error.None?
    ensures var m := OrganizeStep(p, all[k - 1], strategy, monthOf, dirSize, now).root;
      PlacedBefore(m, n, all, k, strategy, monthOf) && UntouchedFrom(m, n, all, k)
      && FoldersClear(n, all, k, strategy, monthOf)
  {
    var g := all[k - 1];
    assert Lookup(p, g) == Lookup(n, g);
    assert g == d + [Name(g)];
    FolderOfSameEntry(n, p, g, strategy, monthOf);
    StepEffects(p, d, g, strategy, monthOf, dirSize, now);
    var m := OrganizeStep(p, g, strategy, monthOf, dirSize, now).root;
    PlacedWith(n, p, m, d, all, k, strategy, monthOf);
    UntouchedWith(n, p, m, d, all, k, strategy, monthOf);
  }

  /** The induction behind `OrganizePlacesEveryFile`: after the first `k`
      entries each of them sits at its place, the rest are where they
      were, and no folder made so far is the path of an entry still to
      come. */
  lemma {:induction false} OrganizeInvariant(n: Node, d: Path, all: seq<Path>, k: nat, strategy: string, monthOf: int -> string, dirSize: nat, now: int)
    requires k <= |all| && SiblingFiles(n, d, all)
    requires RunUntilError(n, all[..k], OrganizeStepOf(strategy, monthOf, dirSize, now)).error.None?
    ensures var m := RunUntilError(n, all[..k], OrganizeStepOf(strategy, monthOf, dirSize, now)).root;
      PlacedBefore(m, n, all, k, strategy, monthOf) && UntouchedFrom(m, n, all, k)
      && FoldersClear(n, all, k, strategy, monthOf)
  {
    var step := OrganizeStepOf(strategy, monthOf, dirSize, now);
    if k == 0 {
      assert all[..k] == [];
    } else {
      assert all[..k][..k - 1] == all[..k - 1];
      OrganizeInvariant(n, d, all, k - 1, strategy, monthOf, dirSize, now);
      var p := RunUntilError(n, all[..k - 1], step).root;
      assert RunUntilError(n, all[..k], step) == OrganizeStep(p, all[k - 1], strategy, monthOf, dirSize, now);
      OrganizeAdvance(n, p, d, all, k, strategy, monthOf, dirSize, now);
    }
  }

  /** Organizing the distinct files of one directory without an error
      leaves each of them, with its content, at its place: a file named
      like a folder is only ever in the way of a `mkdir` while it has not
      been moved yet, and that `mkdir` raises. */
  lemma OrganizePlacesEveryFile(n: Node, d: Path, files: seq<Path>, strategy: string, monthOf: int -> string, dirSize: nat, now: int)
    requires SiblingFiles(n, d, files)
    requires KnownStrategy(strategy)
    requires OrganizeAll(n, files, strategy, monthOf, dirSize, now).error.None?
    ensures var m := OrganizeAll(n, files, strategy, monthOf, dirSize, now).root;
      forall j :: 0 <= j < |files| ==> Lookup(m, Placed(n, files[j], strategy, monthOf)) == Lookup(n, files[j])
  {
    assert files[..|files|] == files;
    OrganizeInvariant(n, d, files, |files|, strategy, monthOf, dirSize, now);
    assert PlacedBefore(OrganizeAll(n, files, strategy, monthOf, dirSize, now).root, n, files, |files|, strategy, monthOf);
  }

  // -------------------------------------------------------------- Archiver

  /** Where `Archiver.execute` puts the archive: nothing for an empty list;
      otherwise the base path `<output name>` (to which ".zip" is appended)
      in the directory of the first entry. */
  function ArchiveBase(files: seq<Path>, outputName: string): (r: Option<Path>)
    ensures r.None? <==> files == []
    ensures r.Some? ==> Parent(r.value) == Parent(files[0]) && Name(r.value) == outputName
  {
    if files == [] then None else Some(Parent(files[0]) + [outputName])
  }

  /** For entries that all sit in one directory `d`, as a listing gives,
      the archive goes into `d`, whichever entry comes first. */
  lemma ArchiveInCommonDirectory(files: seq<Path>, d: Path, outputName: string)
    requires files != []
    requires forall i :: 0 <= i < |files| ==> files[i] != [] && Parent(files[i]) == d
    ensures ArchiveBase(files, outputName) == Some(d + [outputName])
  {
  }
}
