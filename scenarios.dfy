/** Concrete cases of the name computations, as a user of the tool sees
    them. */
module Scenarios {
  import opened Results
  import opened Paths
  import opened Template
  import opened FileTree
  import opened Ordering
  import opened StableSort
  import opened Operations

  /** The dot at `k` is the last one. */
  lemma LastDotAt(s: string, k: int)
    requires -1 <= k < |s| && (0 <= k ==> s[k] == '.')
    requires forall j :: k < j < |s| ==> s[j] != '.'
    ensures LastDot(s) == k
  {
  }

  /** `pathlib` splits names at the last dot, and a leading dot does not
      start a suffix. */
  lemma SuffixCases()
    ensures Suffix("a.txt") == ".txt" && Stem("a.txt") == "a"
    ensures Suffix("archive.tar.gz") == ".gz" && Stem("archive.tar.gz") == "archive.tar"
    ensures Suffix(".bashrc") == "" && Stem(".bashrc") == ".bashrc"
    ensures Suffix("README") == "" && Suffix("notes.") == ""
  {
    LastDotAt("a.txt", 1);
    LastDotAt("archive.tar.gz", 11);
    LastDotAt(".bashrc", 0);
    LastDotAt("README", -1);
    LastDotAt("notes.", 5);
  }

  /** A replacement field other than the three placeholders makes every
      target name fail. */
  lemma UnknownFieldRejected(i: nat, src: Path)
    ensures RenameTarget("{size}", i, src) == Err(BadPattern(UnknownField("size")))
  {
    var s := "{size}";
    var j := FindClose(s, 1);
    assert s[5] == '}' && s[1] != '}' && s[2] != '}' && s[3] != '}' && s[4] != '}';
    assert s[1..5] == "size";
  }

  /** The folders the extension strategy picks. */
  lemma ExtensionFolderCases()
    ensures ExtensionFolder("x.pdf") == "pdf"
    ensures ExtensionFolder("z.txt") == "txt"
    ensures ExtensionFolder("Makefile") == "no_extension"
    ensures ExtensionFolder(".profile") == "no_extension"
  {
    LastDotAt("x.pdf", 1);
    LastDotAt("z.txt", 1);
    LastDotAt("Makefile", -1);
    LastDotAt(".profile", 0);
  }

  /** A file named `no_extension` has no suffix, so the folder it is filed
      under is its own path: `mkdir` finds a file there and raises
      `FileExistsError`, which stops the whole batch with nothing changed. */
  lemma NoExtensionFileBlocksFolder(n: Node, src: Path, rest: seq<Path>, monthOf: int -> string, dirSize: nat, now: int)
    requires IsFile(n, src) && Name(src) == "no_extension"
    ensures FolderOf(n, src, "extension", monthOf) == src
    ensures OrganizeStep(n, src, "extension", monthOf, dirSize, now) == Progress(n, Some(FileExists))
    ensures OrganizeAll(n, [src] + rest, "extension", monthOf, dirSize, now) == Progress(n, Some(FileExists))
  {
    assert src != [] by { assert Lookup(n, []) == Some(n); }
    assert src == Parent(src) + [Name(src)];
    var files := [src] + rest;
    assert files[..1] == [src];
    assert files[..1][..0] == [];
    RunStops(n, files, OrganizeStepOf("extension", monthOf, dirSize, now), 1);
  }

  /** A directory with `a.txt` (100 bytes, older) and `b.txt` (50 bytes,
      newer). */
  function TwoFiles(): Node
  {
    Dir(4096, 0, map["a.txt" := File(seq(100, _ => 0), 10), "b.txt" := File(seq(50, _ => 0), 20)])
  }

  /** Sorting by size puts `b.txt` first; sorting by date puts `a.txt`
      first; reversing the date order swaps them. */
  lemma SortTwoFiles()
    ensures SortResult(TwoFiles(), [["a.txt"], ["b.txt"]], "size", false) == Ok([["b.txt"], ["a.txt"]])
    ensures SortResult(TwoFiles(), [["a.txt"], ["b.txt"]], "date", false) == Ok([["a.txt"], ["b.txt"]])
    ensures SortResult(TwoFiles(), [["a.txt"], ["b.txt"]], "date", true) == Ok([["b.txt"], ["a.txt"]])
  {
    var n := TwoFiles();
    assert Lookup(n, ["a.txt"]) == Some(File(seq(100, _ => 0), 10));
    assert Lookup(n, ["b.txt"]) == Some(File(seq(50, _ => 0), 20));
    var files := [["a.txt"], ["b.txt"]];
    assert AllExist(n, files);
    assert files[1..] == [["b.txt"]];
    assert SizeOf(n, ["a.txt"]) == 100 && SizeOf(n, ["b.txt"]) == 50;
    assert MTimeOf(n, ["a.txt"]) == 10 && MTimeOf(n, ["b.txt"]) == 20;
    var a, b := ["a.txt"], ["b.txt"];
    var bySize, byDate := KeyFn(n, "size"), KeyFn(n, "date");
    assert bySize(a) == Num(100) && bySize(b) == Num(50);
    assert byDate(a) == Num(10) && byDate(b) == Num(20);
    assert Sort([b], bySize, false) == [b] && Sort([b], byDate, false) == [b];
    assert Insert(a, [], bySize, false) == [a];
    assert Sort(files, bySize, false) == Insert(a, [b], bySize, false) == [b, a];
    assert Sort(files, byDate, false) == Insert(a, [b], byDate, false) == [a, b];
  }
}
