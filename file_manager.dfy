/** The file manager: a validated directory, the listing of its regular
    files, and running one operation on a fresh listing. */
module FileManagement {
  import opened Results
  import opened Paths
  import opened FileTree
  import opened Operations

  /** Why the manager cannot work on its directory: `NotADirectoryError`
      for a path that is not a directory, `FileNotFoundError` for one that
      no longer exists when it is listed. */
  datatype ManagerError = NotADirectory(directory: Path) | NotFound(directory: Path)

  /** The error listing a path that is not a directory raises. */
  function ListingError(n: Node, d: Path): (e: ManagerError)
    ensures e.directory == d
    ensures e.NotFound? <==> !Exists(n, d)
  {
    if Exists(n, d) then NotADirectory(d) else NotFound(d)
  }

  /** `files` is a listing of the regular files directly inside `d`: each
      of them exactly once, in some order, and nothing else. */
  ghost predicate IsFileListing(n: Node, d: Path, files: seq<Path>)
  {
    && (forall i, j :: 0 <= i < j < |files| ==> files[i] != files[j])
    && (forall i :: 0 <= i < |files| ==> files[i] != [] && Parent(files[i]) == d && IsFile(n, files[i]))
    && (forall x :: IsFile(n, d + [x]) ==> d + [x] in files)
  }

  /** The child `x` of a directory is found at `d + [x]`. */
  lemma ChildPath(n: Node, d: Path, x: string)
    requires IsDir(n, d)
    ensures Lookup(n, d + [x]) == if x in Children(n, d) then Some(Children(n, d)[x]) else None
    ensures Parent(d + [x]) == d && Name(d + [x]) == x
  {
    LookupAppend(n, d, [x]);
  }

  /** In a sequence without repetitions every element occurs once. */
  lemma {:induction false} DistinctCount(s: seq<Path>, p: Path)
    requires forall i, j :: 0 <= i < j < |s| ==> s[i] != s[j]
    ensures multiset(s)[p] == if p in s then 1 else 0
  {
    if s != [] {
      DistinctCount(s[1..], p);
      assert s == [s[0]] + s[1..];
      assert s[0] !in s[1..] by {
        forall k | 0 <= k < |s[1..]| ensures s[1..][k] != s[0] { assert s[1..][k] == s[k + 1]; }
      }
    }
  }

  /** Every regular file directly inside the directory appears in the
      listing exactly once, and nothing else appears in it: no
      subdirectory, no missing entry, no entry of another directory. */
  lemma ListingCountsEachFileOnce(n: Node, d: Path, files: seq<Path>, p: Path)
    requires IsFileListing(n, d, files)
    ensures multiset(files)[p] == if p != [] && Parent(p) == d && IsFile(n, p) then 1 else 0
  {
    DistinctCount(files, p);
    if p != [] && Parent(p) == d && IsFile(n, p) {
      assert p == d + [Name(p)];
    }
  }

  /** Two listings of the same directory in the same state differ at most
      in their order. */
  lemma ListingsArePermutations(n: Node, d: Path, a: seq<Path>, b: seq<Path>)
    requires IsFileListing(n, d, a) && IsFileListing(n, d, b)
    ensures multiset(a) == multiset(b)
  {
    forall p ensures multiset(a)[p] == multiset(b)[p] {
      ListingCountsEachFileOnce(n, d, a, p);
      ListingCountsEachFileOnce(n, d, b, p);
    }
  }

  /** A listing is a list of distinct files of one directory, which is what
      the organizer's lemmas about a whole batch ask of their input. */
  lemma ListingIsSiblingFiles(n: Node, d: Path, files: seq<Path>)
    requires IsFileListing(n, d, files)
    ensures SiblingFiles(n, d, files)
  {
  }

  /** What an operation reports: the sorted list (or the error `stat`
      raised), one outcome per renamed entry, the error that stopped the
      organizer, or where the archive goes. */
  datatype Report =
    | SortReport(sorted: Result<seq<Path>, OsError>)
    | RenameReport(outcomes: seq<RenameOutcome>)
    | OrganizeReport(error: Option<OsError>)
    | ArchiveReport(archive: Option<Path>)

  /** The state after an operation ran on `files`, and its report. The
      sorter sorts a list the caller then drops, so it leaves the tree as
      it was; so does the archiver in this model. */
  function Apply(op: Operation, n: Node, files: seq<Path>, monthOf: int -> string, dirSize: nat, now: int): (r: (Node, Report))
    ensures op.Sorter? || op.Archiver? ==> r.0 == n
  {
    match op
    case Sorter(sortKey, reverse) => (n, SortReport(SortResult(n, files, sortKey, reverse)))
    case Renamer(pattern) =>
      var run := RenameAll(n, pattern, files);
      (run.root, RenameReport(run.outcomes))
    case Organizer(strategy) =>
      var progress := OrganizeAll(n, files, strategy, monthOf, dirSize, now);
      (progress.root, OrganizeReport(progress.error))
    case Archiver(outputName) => (n, ArchiveReport(ArchiveBase(files, outputName)))
  }

  /** An operation on a listing with no files changes nothing; the
      archiver then reports that there is nothing to archive. */
  lemma ApplyEmpty(op: Operation, n: Node, monthOf: int -> string, dirSize: nat, now: int)
    ensures Apply(op, n, [], monthOf, dirSize, now).0 == n
    ensures op.Archiver? ==> Apply(op, n, [], monthOf, dirSize, now).1 == ArchiveReport(None)
    ensures op.Renamer? ==> Apply(op, n, [], monthOf, dirSize, now).1 == RenameReport([])
    ensures op.Organizer? ==> Apply(op, n, [], monthOf, dirSize, now).1 == OrganizeReport(None)
  {
  }

  /** Manages the operations on one directory of the filesystem `fs`. */
  class FileManager {
    const fs: FileSystem
    const directory: Path

    /** Holds `directory` once it is known to be a directory. */
    constructor Of(fs: FileSystem, directory: Path)
      requires IsDir(fs.root, directory)
      ensures this.fs == fs && this.directory == directory
    {
      this.fs := fs;
      this.directory := directory;
    }

    /** `FileManager(directory)`: raises `NotADirectoryError` unless the
        path is an existing directory. */
    static method Open(fs: FileSystem, directory: Path) returns (r: Result<FileManager, ManagerError>)
      ensures r.Err? <==> !IsDir(fs.root, directory)
      ensures r.Err? ==> r.error == NotADirectory(directory)
      ensures r.Ok? ==> fresh(r.value) && r.value.fs == fs && r.value.directory == directory
    {
      if !IsDir(fs.root, directory) {
        return Err(NotADirectory(directory));
      }
      var m := new FileManager.Of(fs, directory);
      return Ok(m);
    }

    /** `get_files`: the regular files directly inside the directory, in
        the order the directory yields them. The directory is not checked
        again, so listing raises if it has gone since, or if something other
      than a directory has taken its place. */
    method GetFiles() returns (r: Result<seq<Path>, ManagerError>)
      ensures r.Err? <==> !IsDir(fs.root, directory)
      ensures r.Err? ==> r.error == ListingError(fs.root, directory)
      ensures r.Ok? ==> IsFileListing(fs.root, directory, r.value)
    {
      var n := fs.root;
      var d := directory;
      if !IsDir(n, d) {
        return Err(ListingError(n, d));
      }
      var children := Children(n, d);
      var remaining := children.Keys;
      var files: seq<Path> := [];
      while remaining != {}
        invariant remaining <= children.Keys
        invariant forall i :: 0 <= i < |files| ==>
          |files[i]| == |d| + 1 && files[i] == d + [files[i][|d|]]
          && files[i][|d|] in children && files[i][|d|] !in remaining && children[files[i][|d|]].File?
        invariant forall i, j :: 0 <= i < j < |files| ==> files[i] != files[j]
        invariant forall x :: x in children && x !in remaining && children[x].File? ==> d + [x] in files
        decreases remaining
      {
        var x :| x in remaining;
        if children[x].File? {
          files := files + [d + [x]];
        }
        remaining := remaining - {x};
      }
      forall i | 0 <= i < |files|
        ensures files[i] != [] && Parent(files[i]) == d && IsFile(n, files[i])
      {
        ChildPath(n, d, files[i][|d|]);
      }
      forall x | IsFile(n, d + [x]) ensures d + [x] in files {
        ChildPath(n, d, x);
      }
      return Ok(files);
    }

    /** `execute_operation`: lists the directory afresh on every call and
        hands exactly that listing to the operation. */
    method ExecuteOperation(op: Operation, monthOf: int -> string, dirSize: nat, now: int)
      returns (files: seq<Path>, r: Result<Report, ManagerError>)
      modifies fs
      ensures r.Err? <==> !IsDir(old(fs.root), directory)
      ensures r.Err? ==> r.error == ListingError(old(fs.root), directory) && fs.root == old(fs.root)
      ensures r.Ok? ==> IsFileListing(old(fs.root), directory, files)
                        && (fs.root, r.value) == Apply(op, old(fs.root), files, monthOf, dirSize, now)
    {
      var listing := GetFiles();
      if listing.Err? {
        return [], Err(listing.error);
      }
      files := listing.value;
      match op
      case Sorter(sortKey, reverse) =>
        var a := new Path[|files|](i requires 0 <= i < |files| => files[i]);
        assert a[..] == files;
        var err := ExecuteSorter(fs, a, sortKey, reverse);
        var sorted := match err case None => Ok(a[..]) case Some(e) => Err(e);
        r := Ok(SortReport(sorted));
      case Renamer(pattern) =>
        var outcomes := ExecuteRenamer(fs, files, pattern);
        r := Ok(RenameReport(outcomes));
      case Organizer(strategy) =>
        var err := ExecuteOrganizer(fs, files, strategy, monthOf, dirSize, now);
        r := Ok(OrganizeReport(err));
      case Archiver(outputName) =>
        r := Ok(ArchiveReport(ArchiveBase(files, outputName)));
    }
  }
}
