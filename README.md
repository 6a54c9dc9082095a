# File operations model

A Dafny model of the core of a small command-line file manager. The tool
takes one directory, lists the regular files directly inside it, and runs
one batch operation on that list:

- **Sorter** sorts the list by name, date (modification time), size or
  extension, optionally reversed, with Python's stable `list.sort`.
- **Renamer** renames each entry to a name built from a pattern with the
  placeholders `{index}` (1-based position), `{name}` (stem) and `{ext}`
  (suffix). It skips an entry whose target exists, and it carries on past
  an entry that fails.
- **Organizer** moves each file into a subdirectory of its own directory.
  The subdirectory is named after the file's extension, or the file's month
  with the `date` strategy. The first failure ends the batch.
- **Archiver** decides where the ZIP archive of the entries goes.

The filesystem is an abstract tree (`FileTree.Node`). A file holds its
content and modification time. A directory holds its size, its modification
time and a map from names to children. Paths are sequences of names.
`FileTree.FileSystem` is the one mutable object standing for the
filesystem: its field `root` is changed in place by `rename`,
`mkdir(exist_ok=True)` and `shutil.move`. Each of these is a method tied to
a function on trees (`OsRename`, `MakeDir`, `ShutilMove`). The sorter sorts
the caller's list in place as an array.

The sorter, the renamer and the organizer are methods. Each one's `ensures`
equates the new state and its results with a specification function:
`SortResult`, `RenameAll` or `OrganizeAll`. The archiver's decision is the
function `ArchiveBase`, which `FileManager.ExecuteOperation` calls
directly. The properties of the operations are lemmas about those
functions.

Modules:

- `Paths` (paths.dfy): path names, `parent`, and `pathlib`'s `stem` and
  `suffix`.
- `Ordering` and `StableSort` (ordering.dfy, stable_sort.dfy): Python's
  comparison on sort keys, and a stable sort with its properties.
- `Template` (template.dfy): the rename pattern as tokens, with parsing,
  printing and substitution.
- `FileTree` (file_tree.dfy): the directory tree and the filesystem calls.
- `Operations` (operations.dfy): the four operations.
- `FileManagement` (file_manager.dfy): the `FileManager` class.
- `Scenarios` (scenarios.dfy): concrete cases.

The model follows the code in these cases:

- The listing has no extension filter: `get_files` takes no filter
  argument.
- A rename whose target equals its source is a skip, reported as an
  existing target, not a silent no-op. `RenameToSelfSkipped` states this.
- The Organizer has a `date` strategy besides `extension`. The
  timestamp-to-month formatting is a parameter.
- An unknown sort key or strategy matches no branch, so the operation does
  nothing.

## Model

| member | source | states |
|---|---|---|
| `Paths.Suffix` | operations.py:37 | the suffix is empty exactly when the name has no dot, or its last dot is its first or last character; otherwise it is the tail of the name from its last dot, and it contains no other dot |
| `Paths.Stem` | operations.py:53 | stem followed by suffix gives back the name; a non-empty name has a non-empty stem |
| `Scenarios.SuffixCases` | operations.py:37 | `a.txt` splits into `a` and `.txt`; `archive.tar.gz` splits at its last dot; `.bashrc`, `README` and (under the Python 3.12 rule) `notes.` have no suffix |
| `StableSort.Sort` | operations.py:31-37 | `list.sort` as a stable insertion sort; the result has as many entries as the input (its order, permutation and stability are the lemmas below) |
| `Operations.SizeOf` | operations.py:35 | `stat().st_size`: never negative; a file's size is its number of bytes, a directory's the size the system gave it |
| `Operations.MTimeOfEntry` | operations.py:33 | `stat().st_mtime` of an existing entry is the modification time it carries, file or directory |
| `StableSort.SortPermutes` | operations.py:31-37 | the sorted list is a permutation of the input |
| `StableSort.SortOrdered` | operations.py:31-37 | the sorted list is ordered by the key: ascending, or descending with `reverse` |
| `StableSort.SortStable` | operations.py:31-37 | for every key value, the entries with that key keep their relative order (with or without `reverse`) |
| `StableSort.SortIdempotent` | operations.py:31-37 | sorting a sorted list again gives the same list |
| `Ordering.BeforeTotal` | operations.py:31-37 | any two keys are comparable in the sort order |
| `Ordering.BeforeTransitive` | operations.py:31-37 | the sort order is transitive |
| `Ordering.BeforeAntisymmetric` | operations.py:31-37 | two keys that are each before the other are equal, so ties are exactly equal keys |
| `Operations.SortResult` | operations.py:30-37 | the sorter fails exactly when it sorts by date or size and some entry no longer exists (a failed `stat`); an unknown key leaves the list unchanged |
| `Operations.ExecuteSorter` | operations.py:28-41 | the caller's list becomes the sorted list, or stays as it was when `stat` raised; the directory is not modified |
| `Operations.SorterPermutes` | operations.py:30-37 | after sorting, the list is a permutation of the input |
| `Operations.SorterOrdered` | operations.py:30-37 | for a known key, the list is ordered by name, mtime, size or suffix, non-increasing with `reverse` |
| `Operations.SorterStable` | operations.py:30-37 | entries with equal keys keep their original relative order |
| `Operations.SorterIdempotent` | operations.py:30-37 | sorting the sorted list with the same settings leaves it unchanged |
| `Scenarios.SortTwoFiles` | operations.py:33-35 | with `a.txt` (100 bytes, older) and `b.txt` (50 bytes, newer): by size gives `[b.txt, a.txt]`, by date gives `[a.txt, b.txt]`, by date reversed gives `[b.txt, a.txt]` |
| `Template.NatToString` | operations.py:53 | the index is written as decimal digits without leading zeros |
| `Template.DecimalRoundTrip` | operations.py:53 | reading back the written index gives the index |
| `Template.FindClose` | operations.py:53 | finds the first `}` at or after a position, or the end of the pattern |
| `Template.Step` | operations.py:53 | each token read consumes at least one character of the pattern |
| `Template.ParsePrint` | operations.py:53 | every token sequence is read back exactly from its printed pattern |
| `Template.PrintParse` | operations.py:53 | a pattern that parses is exactly the printed form of its tokens |
| `Template.Format` | operations.py:53 | formatting succeeds exactly when the pattern parses |
| `Template.RenderLiteralsOnly` | operations.py:53 | a pattern without placeholders gives its literal text for every entry |
| `Scenarios.UnknownFieldRejected` | operations.py:53 | a replacement field other than the three placeholders, such as `{size}`, makes the target name fail |
| `Operations.TargetExists` | operations.py:55 | every entry of the tree exists; a target whose last component is `..` exists exactly when the directory it is in does; any other target exists exactly when the tree has an entry there |
| `Paths.ValidName` | operations.py:54 | a name a rename can go to is non-empty, not `.`, and has no separator and no NUL character; every other name is refused |
| `Operations.TargetName` | operations.py:53 | the new name fails exactly when the pattern does not parse, with the parse error, the same for every entry; otherwise it is the parsed pattern rendered with the 1-based index, the stem and the suffix |
| `Operations.RenameTarget` | operations.py:53-54 | a computed target is a non-empty path in the same directory as its source |
| `Operations.RenameTargetSubstitutes` | operations.py:53-54 | the target of the entry at position `i` is the pattern with index `i + 1`, the stem and the suffix substituted, in the entry's own directory; an illegal name is the error branch |
| `Operations.RenameTargetInParent` | operations.py:53-54 | a target that was computed is a legal name placed under the source's parent |
| `Operations.RenameTo` | operations.py:55-58 | a renamed or skipped entry reports the target it was given |
| `Operations.RenameStep` | operations.py:52-61 | every exception is caught for the entry: it fails exactly when its new name cannot be computed, or when its target is free but the entry itself is gone; a naming error leaves the tree unchanged; a skipped or renamed entry reports the computed target |
| `Operations.ExecuteRenamer` | operations.py:49-61 | the loop leaves the filesystem and the per-entry outcomes that the batch specification `RenameAll` gives |
| `Operations.RenameAttemptsEvery` | operations.py:51-61 | there is one outcome per entry; entry `i`'s outcome is its step on the tree that the entries before it left, so a failure does not stop the batch |
| `Operations.RenameNeverOverwrites` | operations.py:55-58 | an entry is skipped exactly when its target exists, and a skip or failure leaves the tree unchanged; a rename happens only onto a free target |
| `Operations.RenameToSelfSkipped` | operations.py:55-57 | a target equal to the source counts as existing, so the entry is skipped |
| `Operations.RenameMovesEntry` | operations.py:58 | after a rename the target holds the source's content, the source is gone, the directory keeps its number of entries, and unrelated paths are unchanged |
| `Operations.RenameBadPattern` | operations.py:51-61 | a malformed pattern fails every entry, changes nothing, and the batch still goes through all entries |
| `Operations.RenameStepKeeps` | operations.py:55-58 | one rename step keeps an existing entry that is neither the step's entry, nor inside it, nor above it |
| `Operations.RenameKeepsBystanders` | operations.py:51-61 | over the whole batch, an existing entry outside the listed entries keeps exactly what it had: nothing is renamed onto it |
| `FileTree.RenameEffect` | operations.py:58 | `os.rename` moves the subtree from the source to the target and leaves every unrelated path alone |
| `FileTree.RenameKeepsCount` | operations.py:58 | a rename within a directory keeps its number of entries |
| `FileTree.FileSystem.Rename` | operations.py:58 | the in-place state becomes `OsRename` of the old state, and the error is reported |
| `FileTree.MakeDir` | operations.py:77 | `mkdir(exist_ok=True)` succeeds exactly on an existing directory, which it keeps as it is, or on a free path in an existing directory, which it creates as an empty directory; any other existing entry raises `FileExistsError`; a missing parent raises `FileNotFoundError`; on success the path is a directory |
| `FileTree.ShutilMove` | operations.py:78 | an occupied `dest / name` is reported first, even when the source is gone too; with the slot free, a missing source is the error, then a move of a directory into its own subtree, each exactly in its case; every other move succeeds, including a move of a path onto itself; a successful move is `MoveInto`: it puts the source's entry into the free slot, leaves nothing at the source and keeps `dest` a directory |
| `FileTree.MakeDirIdempotent` | operations.py:77 | after `mkdir(exist_ok=True)` the path is a directory, and calling it again changes nothing |
| `FileTree.MakeDirFrame` | operations.py:77 | `mkdir(exist_ok=True)` succeeds only on an existing directory or a free path, and changes nothing except the new directory and the directories above it |
| `FileTree.FileSystem.MakeDirExistOk` | operations.py:77 | the in-place state becomes `MakeDir` of the old state; on success the path is a directory |
| `FileTree.FileSystem.Move` | operations.py:78 | the in-place state becomes `ShutilMove` of the old state, and the error is reported |
| `FileTree.MoveIntoTarget` | operations.py:78 | after a move, the moved subtree is found under `dest / name` |
| `FileTree.MoveIntoSource` | operations.py:78 | after a move, nothing is left at or under the source |
| `FileTree.MoveIntoFrame` | operations.py:78 | a move changes no path away from its source and destination |
| `FileTree.MoveIntoUndo` | operations.py:78 | moving the entry back restores the original tree |
| `Operations.ExtensionFolder` | operations.py:75 | the folder is the suffix without its dot, or `no_extension` when there is no suffix; it is a non-empty name without dots, and it equals the file's own name only for a file named `no_extension` |
| `Scenarios.ExtensionFolderCases` | operations.py:75 | `x.pdf` goes to `pdf`, `z.txt` to `txt`, `Makefile` and `.profile` to `no_extension` |
| `Operations.ExecuteOrganizer` | operations.py:69-89 | the loop leaves the filesystem and error that `OrganizeAll` gives: every entry in order until the first error, and nothing for an unknown strategy |
| `Operations.OrganizeEntry` | operations.py:72-79 | one iteration skips a directory, otherwise creates the folder and moves the entry; the new state and error are those of the step specification `OrganizeStep` |
| `Operations.RunStops` | operations.py:72-79 | once an entry has raised, the later entries change nothing |
| `Operations.OrganizeStep` | operations.py:72-79 | a directory in the input is skipped and changes nothing; when an entry that is not a directory is handled without error, its folder is a directory afterwards |
| `Operations.MoveToFolder` | operations.py:76-78 | only `mkdir` raises `FileExistsError`, exactly when an entry that is not a directory holds the folder's path; when nothing raised, the folder is a directory |
| `Operations.OrganizeFolderBlocked` | operations.py:75-77 | a step raises `FileExistsError` exactly when an entry that is not a directory holds the folder's path of an entry that is not a directory (and, with `date`, still exists) |
| `Operations.FolderOf` | operations.py:75-76 | the folder is a sibling of the entry, named after its suffix (or its month with `date`); with `extension` it is the entry's own path only for an entry named `no_extension` |
| `Operations.OrganizeIntoNewFolder` | operations.py:76-78 | a missing folder is created: a file whose folder does not exist yet is moved into a new directory without error |
| `Operations.OrganizeIntoExistingFolder` | operations.py:76-78 | an existing folder is not an error: a file whose folder is already a directory, with the file's name free in it, is moved into it without error, and no directory is created |
| `Scenarios.NoExtensionFileBlocksFolder` | operations.py:75-77 | a file named `no_extension` is filed under its own path, so `mkdir` raises `FileExistsError` and the batch stops with nothing changed |
| `Operations.OrganizeMovesFile` | operations.py:75-78 | a file handled without error now sits, with its content, in its folder within its own directory; its folder is a directory; its old path is gone |
| `Operations.OrganizeStepFrame` | operations.py:76-78 | the folder was a directory or absent, and paths away from the file, its new place and its folder are unchanged |
| `Operations.OrganizeUndo` | operations.py:75-78 | moving an organized file back gives the tree as it was, with only the created folder left behind |
| `Operations.OrganizePlacesEveryFile` | operations.py:71-79 | organizing the distinct files of one directory without error leaves each of them, with its content, in its folder |
| `Operations.ArchiveBase` | operations.py:98-104 | no archive for an empty list; otherwise the archive base is `output_name` in the first entry's directory |
| `Operations.ArchiveInCommonDirectory` | operations.py:102-104 | for entries of one directory, the archive goes into that directory |
| `FileManagement.FileManager.Open` | file_manager.py:7-10 | construction fails with a not-a-directory error exactly when the path is not an existing directory; otherwise it holds that path |
| `FileManagement.ListingError` | file_manager.py:14 | listing a path that is not a directory raises `FileNotFoundError` when nothing is there and `NotADirectoryError` otherwise |
| `FileManagement.FileManager.GetFiles` | file_manager.py:12-14 | the result lists every regular file directly inside the directory exactly once and nothing else; listing fails, with `FileNotFoundError` or `NotADirectoryError`, if the directory has gone or been replaced since |
| `FileManagement.ListingCountsEachFileOnce` | file_manager.py:14 | in a listing, each regular file of the directory occurs once and every other path, including subdirectories, occurs zero times |
| `FileManagement.ListingsArePermutations` | file_manager.py:14 | two listings of the same state differ only in order |
| `FileManagement.ListingIsSiblingFiles` | file_manager.py:14 | a listing is a list of distinct files of one directory, as the organizer's batch lemma requires |
| `FileManagement.FileManager.ExecuteOperation` | file_manager.py:16-19 | each call lists the current directory state afresh and hands exactly that listing to the operation; the new state and report are those of the operation on that listing |
| `FileManagement.Apply` | file_manager.py:19 | in this model the sorter and the archiver leave the directory as it was: the sorter only reorders the caller's list, and the archive itself is not modelled |
| `FileManagement.ApplyEmpty` | operations.py:98-100 | an operation on an empty list changes nothing; the archiver then reports that there is no archive |

## Left out

- Real I/O is not modelled: `iterdir`, `stat`, `rename`, `mkdir` and
  `shutil.move` are functions on the abstract tree. Operating-system errors
  are only the ones these functions can raise on the tree: a missing source,
  an existing destination, a file in the way of `mkdir`, a missing parent,
  and a move into itself. Permission errors, symbolic links and concurrent
  changes by other processes are not modelled.
- `Template.Format`: only `{index}`, `{name}`, `{ext}`, `{{` and `}}` are
  accepted. Format specifications and conversions (`{index:03d}`,
  `{name!r}`), positional fields, attribute access and element indexing
  (`{name[0]}`, `{ext[1]}`) are treated as errors, although `str.format`
  accepts some of them.
- `Operations.ExecuteOrganizer`: with the `date` strategy, turning a
  timestamp into a local-time year and month is the parameter `monthOf`.
  Time zones and `datetime` are not modelled.
- Modification times are integers, not floating-point `st_mtime`.
- `Operations.ArchiveBase`: only the empty check and the archive location
  are modelled. Copying into a temporary directory, its cleanup and the ZIP
  encoding by `shutil.make_archive` are not, so the model's archiver leaves
  the tree unchanged. The `.zip` suffix that `make_archive` adds is not part
  of the modelled path.
- `Operations.ArchiveBase`: `parent / output_name` is one path component.
  A name holding a separator, or an absolute one, is not modelled.
- All console output (`print`) is left out. The reports the methods return
  stand for it.
- `FileManagement.Apply`: the real archiver adds `output_name.zip` to the
  directory of the first entry. The model's archiver only decides that
  path and leaves the tree unchanged.
- `Paths.Suffix`: follows the suffix rule of Python 3.12, in which a name
  ending in a dot has no suffix. Later Python versions that count a
  trailing dot as a suffix are not modelled.
- `Operations.RenameTarget`: a name with a NUL character is refused before the
  rename, as `IllegalName`. Python instead reports the target as missing
  and then fails in `rename` with `ValueError`. Either way the entry fails
  and the tree is unchanged.
- ui.py (interactive prompts and their retry loops) and main.py (menu
  dispatch and top-level error reporting) are not part of this model.
- `FileManagement.FileManager.Open`: a failed construction is a `Result`
  error rather than a raised `NotADirectoryError`.
