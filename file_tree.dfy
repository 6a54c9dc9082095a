/** The abstract directory tree the operations act on, and the filesystem
    calls they make (`os.rename`, `Path.mkdir(exist_ok=True)`,
    `shutil.move`) as functions on it. */
module FileTree {
  import opened Results
  import opened Paths

  newtype byte = b: int | 0 <= b < 256

  /** A regular file, or a directory holding named children. A file's size
      is the length of its content; a directory's `size` is whatever the
      filesystem reports for it. */
  datatype Node =
    | File(content: seq<byte>, mtime: int)
    | Dir(size: nat, mtime: int, children: map<string, Node>)

  /** The entry a path names, if any. Paths through a file name nothing. */
  function Lookup(n: Node, p: Path): Option<Node>
    decreases |p|
  {
    if p == [] then Some(n)
    else if n.Dir? && p[0] in n.children then Lookup(n.children[p[0]], p[1..])
    else None
  }

  predicate Exists(n: Node, p: Path)
  {
    Lookup(n, p).Some?
  }

  /** `Path.is_dir()`. */
  predicate IsDir(n: Node, p: Path)
  {
    Lookup(n, p).Some? && Lookup(n, p).value.Dir?
  }

  /** `Path.is_file()`. */
  predicate IsFile(n: Node, p: Path)
  {
    Lookup(n, p).Some? && Lookup(n, p).value.File?
  }

  function Children(n: Node, p: Path): map<string, Node>
    requires IsDir(n, p)
  {
    Lookup(n, p).value.children
  }

  /** Every ancestor of an existing entry is a directory. */
  lemma {:induction false} AncestorIsDir(n: Node, p: Path, q: Path)
    requires Exists(n, q) && IsPrefix(p, q) && p != q
    ensures IsDir(n, p)
    decreases |p|
  {
    if p != [] {
      assert q[0] == p[0];
      AncestorIsDir(n.children[p[0]], p[1..], q[1..]);
    }
  }

  lemma ParentIsDir(n: Node, p: Path)
    requires Exists(n, p) && p != []
    ensures IsDir(n, Parent(p))
  {
    AncestorIsDir(n, Parent(p), p);
  }

  /** Replaces (`Some`) or removes (`None`) the child `name` of the
      directory at `dir`. */
  function SetChild(n: Node, dir: Path, name: string, v: Option<Node>): Node
    requires IsDir(n, dir)
    decreases |dir|
  {
    if dir == [] then
      n.(children := if v.Some? then n.children[name := v.value] else n.children - {name})
    else
      n.(children := n.children[dir[0] := SetChild(n.children[dir[0]], dir[1..], name, v)])
  }

  /** What `SetChild` changes: below `dir + [name]` the new child is seen,
      `dir` and its ancestors stay directories, and every other path names
      what it named before. */
  lemma {:induction false} LookupSetChild(n: Node, dir: Path, name: string, v: Option<Node>, q: Path)
    requires IsDir(n, dir)
    ensures var m := SetChild(n, dir, name, v);
      if IsPrefix(dir + [name], q) then
        Lookup(m, q) == (if v.None? then None else Lookup(v.value, q[|dir| + 1..]))
      else if IsPrefix(q, dir) then IsDir(m, q)
      else Lookup(m, q) == Lookup(n, q)
    decreases |dir|
  {
    if q != [] && dir != [] && q[0] == dir[0] {
      LookupSetChild(n.children[dir[0]], dir[1..], name, v, q[1..]);
      assert (dir + [name])[1..] == dir[1..] + [name];
    } else if q != [] && dir == [] && q[0] == name {
      assert IsPrefix(dir + [name], q);
    }
  }

  /** The children of `dir` after `SetChild`. */
  lemma {:induction false} ChildrenSetChild(n: Node, dir: Path, name: string, v: Option<Node>)
    requires IsDir(n, dir)
    ensures IsDir(SetChild(n, dir, name, v), dir)
    ensures Children(SetChild(n, dir, name, v), dir)
         == if v.Some? then Children(n, dir)[name := v.value] else Children(n, dir) - {name}
    decreases |dir|
  {
    if dir != [] {
      ChildrenSetChild(n.children[dir[0]], dir[1..], name, v);
    }
  }

  /** `os.rename` of an existing entry to a name in the same directory that
      is not taken: the entry, with everything under it, changes name. */
  function Rename(n: Node, src: Path, dst: Path): (m: Node)
    requires Exists(n, src) && src != [] && dst != []
    requires Parent(dst) == Parent(src) && !Exists(n, dst)
  {
    ParentIsDir(n, src);
    var dir := Parent(src);
    var n1 := SetChild(n, dir, Name(src), None);
    ChildrenSetChild(n, dir, Name(src), None);
    SetChild(n1, dir, Name(dst), Lookup(n, src))
  }

  /** Moves an existing entry into the directory `dest`, keeping its name. */
  function MoveInto(n: Node, src: Path, dest: Path): (m: Node)
    requires Exists(n, src) && src != [] && IsDir(n, dest) && !IsPrefix(src, dest)
  {
    ParentIsDir(n, src);
    var n1 := SetChild(n, Parent(src), Name(src), None);
    LookupSetChild(n, Parent(src), Name(src), None, dest);
    SetChild(n1, dest, Name(src), Lookup(n, src))
  }

  /** Why a filesystem call raises. */
  datatype OsError =
    | FileExists          // mkdir: the path exists and is not a directory
    | ParentMissing       // mkdir: the parent is not a directory
    | DestinationExists   // shutil.move: the destination entry exists
    | SourceMissing       // rename or move: there is nothing to move
    | MoveIntoItself      // shutil.move: a directory into its own subtree

  /** `Path.mkdir(exist_ok=True)`, creating an empty directory with the
      metadata the system gives it. It has three outcomes: an existing
      directory is left as it is and is not an error; any other existing
      entry raises `FileExistsError`; a missing parent raises
      `FileNotFoundError`. A free path in an existing directory is created
      as an empty directory. Whenever it succeeds there is a directory at
      the path afterwards. */
  function MakeDir(n: Node, p: Path, size: nat, mtime: int): (r: Result<Node, OsError>)
    ensures r.Ok? <==> IsDir(n, p) || (!Exists(n, p) && IsDir(n, Parent(p)))
    ensures IsDir(n, p) ==> r == Ok(n)
    ensures !Exists(n, p) && IsDir(n, Parent(p)) ==>
      r == Ok(SetChild(n, Parent(p), Name(p), Some(Dir(size, mtime, map[]))))
    ensures r == Err(FileExists) <==> Exists(n, p) && !IsDir(n, p)
    ensures r == Err(ParentMissing) <==> !Exists(n, p) && !IsDir(n, Parent(p))
    ensures r.Ok? ==> IsDir(r.value, p)
  {
    if IsDir(n, p) then Ok(n)
    else if Exists(n, p) then Err(FileExists)
    else if !IsDir(n, Parent(p)) then Err(ParentMissing)
    else
      assert p == Parent(p) + [Name(p)];
      LookupSetChild(n, Parent(p), Name(p), Some(Dir(size, mtime, map[])), p);
      assert p[|Parent(p)| + 1..] == [];
      Ok(SetChild(n, Parent(p), Name(p), Some(Dir(size, mtime, map[]))))
  }

  /** `shutil.move(src, dest)` for a destination that is a directory: the
      entry moves to `dest / name`, unless something is already there. A
      move of a path onto itself is a rename to itself and changes nothing.
      The occupied destination is checked first, so it is the error even
      when the source is gone as well; then a missing source; then a move
      of a directory into its own subtree. Every other move succeeds, and
      a move that succeeds never overwrites: it puts the source's entry
      into a free slot, nothing is left at the source, and `dest` is still
      a directory. */
  function ShutilMove(n: Node, src: Path, dest: Path): (r: Result<Node, OsError>)
    requires IsDir(n, dest)
    ensures r.Err? ==> src != dest
    ensures src != dest && Exists(n, dest + [Name(src)]) ==> r == Err(DestinationExists)
    ensures r == Err(SourceMissing) <==>
      src != dest && src != [] && !Exists(n, dest + [Name(src)]) && !Exists(n, src)
    ensures r == Err(MoveIntoItself) <==>
      src != dest && src != [] && !Exists(n, dest + [Name(src)]) && Exists(n, src) && IsPrefix(src, dest)
    ensures r.Ok? <==>
      src == dest || (src != [] && Exists(n, src) && !Exists(n, dest + [Name(src)]) && !IsPrefix(src, dest))
    ensures r.Ok? && src != dest ==> r.value == MoveInto(n, src, dest)
    ensures r.Ok? ==> IsDir(r.value, dest)
    ensures r.Ok? && src != dest ==>
      && src != [] && Exists(n, src) && !Exists(n, dest + [Name(src)])
      && Lookup(r.value, dest + [Name(src)]) == Lookup(n, src)
      && !Exists(r.value, src)
  {
    if src == dest then Ok(n)
    else if src == [] || Exists(n, dest + [Name(src)]) then Err(DestinationExists)
    else if !Exists(n, src) then Err(SourceMissing)
    else if IsPrefix(src, dest) then Err(MoveIntoItself)
    else
      MoveIntoTarget(n, src, dest, []);
      MoveIntoSource(n, src, dest, src);
      MoveIntoFrame(n, src, dest, dest);
      assert dest + [Name(src)] + [] == dest + [Name(src)] && src + [] == src;
      Ok(MoveInto(n, src, dest))
  }

  /** Looking up a path in two steps. */
  lemma {:induction false} LookupAppend(n: Node, p: Path, r: Path)
    ensures Lookup(n, p + r) == if Lookup(n, p).Some? then Lookup(Lookup(n, p).value, r) else None
    decreases |p|
  {
    if p != [] {
      var pr := p + r;
      assert pr != [] && pr[0] == p[0] && pr[1..] == p[1..] + r;
      if n.Dir? && p[0] in n.children {
        LookupAppend(n.children[p[0]], p[1..], r);
        assert Lookup(n, pr) == Lookup(n.children[p[0]], p[1..] + r);
      } else {
        assert Lookup(n, pr) == None;
      }
    } else {
      assert p + r == r;
    }
  }

  /** Setting the same child twice keeps only the second value. */
  lemma {:induction false} SetChildTwice(n: Node, dir: Path, name: string, v: Option<Node>, w: Option<Node>)
    requires IsDir(n, dir)
    ensures IsDir(SetChild(n, dir, name, v), dir)
    ensures SetChild(SetChild(n, dir, name, v), dir, name, w) == SetChild(n, dir, name, w)
    decreases |dir|
  {
    ChildrenSetChild(n, dir, name, v);
    if dir == [] {
      var c := n.children;
      var c1 := if v.Some? then c[name := v.value] else c - {name};
      var c2 := if w.Some? then c1[name := w.value] else c1 - {name};
      assert c2 == if w.Some? then c[name := w.value] else c - {name};
    } else {
      SetChildTwice(n.children[dir[0]], dir[1..], name, v, w);
    }
  }

  /** Setting a child to what it already is changes nothing. */
  lemma {:induction false} SetChildSame(n: Node, dir: Path, name: string)
    requires IsDir(n, dir)
    ensures SetChild(n, dir, name, Lookup(n, dir + [name])) == n
    decreases |dir|
  {
    LookupAppend(n, dir, [name]);
    if dir == [] {
      assert Lookup(n, [name]) == if name in n.children then Some(n.children[name]) else None;
      var c := n.children;
      if name in c {
        assert c[name := c[name]] == c;
      } else {
        assert c - {name} == c;
      }
    } else {
      assert (dir + [name])[1..] == dir[1..] + [name];
      SetChildSame(n.children[dir[0]], dir[1..], name);
      assert n.children[dir[0] := n.children[dir[0]]] == n.children;
    }
  }

  /** What a rename changes: the subtree at `src` is now found at `dst`,
      nothing is left at `src`, and every path unrelated to `src` and `dst`
      names what it named before. */
  lemma RenameEffect(n: Node, src: Path, dst: Path, q: Path)
    requires Exists(n, src) && src != [] && dst != []
    requires Parent(dst) == Parent(src) && !Exists(n, dst)
    ensures var m := Rename(n, src, dst);
      && (IsPrefix(dst, q) ==> Lookup(m, q) == Lookup(n, src + q[|dst|..]))
      && (IsPrefix(src, q) ==> Lookup(m, q) == None)
      && (IsPrefix(q, Parent(src)) ==> IsDir(m, q))
      && (!IsPrefix(src, q) && !IsPrefix(dst, q) && !IsPrefix(q, Parent(src)) ==> Lookup(m, q) == Lookup(n, q))
  {
    ParentIsDir(n, src);
    var dir := Parent(src);
    var f := Lookup(n, src);
    var n1 := SetChild(n, dir, Name(src), None);
    ChildrenSetChild(n, dir, Name(src), None);
    assert src == dir + [Name(src)] && dst == dir + [Name(dst)];
    LookupSetChild(n, dir, Name(src), None, q);
    LookupSetChild(n1, dir, Name(dst), f, q);
    PrefixesComparable(src, dst, q);
    if IsPrefix(dst, q) {
      assert q == dst + q[|dst|..];
      LookupAppend(n, src, q[|dst|..]);
    }
  }

  /** A rename keeps the number of entries in the directory. */
  lemma RenameKeepsCount(n: Node, src: Path, dst: Path)
    requires Exists(n, src) && src != [] && dst != []
    requires Parent(dst) == Parent(src) && !Exists(n, dst)
    requires IsDir(n, Parent(src))
    ensures IsDir(Rename(n, src, dst), Parent(src))
    ensures |Children(Rename(n, src, dst), Parent(src))| == |Children(n, Parent(src))|
  {
    var dir := Parent(src);
    var f := Lookup(n, src);
    var n1 := SetChild(n, dir, Name(src), None);
    ChildrenSetChild(n, dir, Name(src), None);
    ChildrenSetChild(n1, dir, Name(dst), f);
    var c := Children(n, dir);
    assert src == dir + [Name(src)] && dst == dir + [Name(dst)];
    LookupAppend(n, dir, [Name(src)]);
    LookupAppend(n, dir, [Name(dst)]);
    assert Name(src) in c && Name(dst) !in c;
    var c1 := c - {Name(src)};
    assert |c1| == |c| - 1;
    assert |c1[Name(dst) := f.value]| == |c1| + 1;
  }

  /** The facts about `MoveInto`'s two steps that its effect lemmas share. */
  lemma MoveIntoSteps(n: Node, src: Path, dest: Path, q: Path)
    requires Exists(n, src) && src != [] && IsDir(n, dest) && !IsPrefix(src, dest)
    requires !Exists(n, dest + [Name(src)])
    ensures IsDir(n, Parent(src))
    ensures IsDir(SetChild(n, Parent(src), Name(src), None), dest)
    ensures !IsPrefix(dest + [Name(src)], src) && !IsPrefix(src, dest + [Name(src)])
    ensures MoveInto(n, src, dest)
         == SetChild(SetChild(n, Parent(src), Name(src), None), dest, Name(src), Lookup(n, src))
  {
    ParentIsDir(n, src);
    var x := Name(src);
    var dst := dest + [x];
    LookupSetChild(n, Parent(src), x, None, dest);
    if IsPrefix(dst, src) && dst != src {
      AncestorIsDir(n, dst, src);
    }
    PrefixTransitive(src, dst, dest);
    assert IsPrefix(src, dst) ==> src == dst || IsPrefix(src, dest);
  }

  /** After a move into `dest`, the moved subtree is found under
      `dest / name`. */
  lemma MoveIntoTarget(n: Node, src: Path, dest: Path, r: Path)
    requires Exists(n, src) && src != [] && IsDir(n, dest) && !IsPrefix(src, dest)
    requires !Exists(n, dest + [Name(src)])
    ensures Lookup(MoveInto(n, src, dest), dest + [Name(src)] + r) == Lookup(n, src + r)
  {
    var x := Name(src);
    var q := dest + [x] + r;
    MoveIntoSteps(n, src, dest, q);
    var n1 := SetChild(n, Parent(src), x, None);
    LookupSetChild(n1, dest, x, Lookup(n, src), q);
    assert IsPrefix(dest + [x], q) && q[|dest| + 1..] == r;
    LookupAppend(n, src, r);
  }

  /** After a move, nothing is left at the source or under it. */
  lemma MoveIntoSource(n: Node, src: Path, dest: Path, q: Path)
    requires Exists(n, src) && src != [] && IsDir(n, dest) && !IsPrefix(src, dest)
    requires !Exists(n, dest + [Name(src)])
    requires IsPrefix(src, q)
    ensures Lookup(MoveInto(n, src, dest), q) == None
  {
    var x := Name(src);
    MoveIntoSteps(n, src, dest, q);
    var n1 := SetChild(n, Parent(src), x, None);
    assert src == Parent(src) + [x];
    LookupSetChild(n, Parent(src), x, None, q);
    LookupSetChild(n1, dest, x, Lookup(n, src), q);
    PrefixesComparable(src, dest + [x], q);
    PrefixTransitive(src, q, dest);
  }

  /** A move changes nothing away from its source and destination; the
      directories on both paths stay directories. */
  lemma MoveIntoFrame(n: Node, src: Path, dest: Path, q: Path)
    requires Exists(n, src) && src != [] && IsDir(n, dest) && !IsPrefix(src, dest)
    requires !Exists(n, dest + [Name(src)])
    ensures IsPrefix(q, Parent(src)) || IsPrefix(q, dest) ==> IsDir(MoveInto(n, src, dest), q)
    ensures (!IsPrefix(src, q) && !IsPrefix(dest + [Name(src)], q) && !IsPrefix(q, Parent(src))
             && !IsPrefix(q, dest)) ==> Lookup(MoveInto(n, src, dest), q) == Lookup(n, q)
  {
    var x := Name(src);
    MoveIntoSteps(n, src, dest, q);
    var n1 := SetChild(n, Parent(src), x, None);
    assert src == Parent(src) + [x];
    LookupSetChild(n, Parent(src), x, None, q);
    LookupSetChild(n1, dest, x, Lookup(n, src), q);
    PrefixTransitive(q, dest, dest + [x]);
    PrefixTransitive(q, Parent(src), src);
    assert IsPrefix(dest, dest + [x]) && IsPrefix(Parent(src), src);
  }

  /** Adding a child where there was none and removing it again. */
  lemma SetChildUndo(n: Node, dir: Path, name: string, v: Option<Node>)
    requires IsDir(n, dir) && Lookup(n, dir + [name]) == None
    ensures IsDir(SetChild(n, dir, name, v), dir)
    ensures SetChild(SetChild(n, dir, name, v), dir, name, None) == n
  {
    SetChildTwice(n, dir, name, v, None);
    SetChildSame(n, dir, name);
  }

  /** Removing a child and putting it back. */
  lemma SetChildRestore(n: Node, dir: Path, name: string)
    requires IsDir(n, dir)
    ensures IsDir(SetChild(n, dir, name, None), dir)
    ensures SetChild(SetChild(n, dir, name, None), dir, name, Lookup(n, dir + [name])) == n
  {
    SetChildTwice(n, dir, name, None, Lookup(n, dir + [name]));
    SetChildSame(n, dir, name);
  }

  /** An organizing move can be undone: moving the entry back to where it
      was gives back the original tree. */
  lemma MoveIntoUndo(n: Node, src: Path, dest: Path)
    requires Exists(n, src) && src != [] && IsDir(n, dest) && !IsPrefix(src, dest)
    requires !Exists(n, dest + [Name(src)])
    ensures var m := MoveInto(n, src, dest);
      && Exists(m, dest + [Name(src)]) && IsDir(m, Parent(src)) && !Exists(m, src)
      && !IsPrefix(dest + [Name(src)], Parent(src))
      && MoveInto(m, dest + [Name(src)], Parent(src)) == n
  {
    var x := Name(src);
    var p := Parent(src);
    var dst := dest + [x];
    var f := Lookup(n, src);
    MoveIntoSteps(n, src, dest, src);
    var n1 := SetChild(n, p, x, None);
    var m := MoveInto(n, src, dest);
    assert m == SetChild(n1, dest, x, f);
    MoveIntoTarget(n, src, dest, []);
    MoveIntoFrame(n, src, dest, p);
    MoveIntoSource(n, src, dest, src);
    assert dst + [] == dst && src + [] == src;
    assert Lookup(m, dst) == f;
    assert src == p + [x] && Name(dst) == x && Parent(dst) == dest;
    PrefixTransitive(dst, p, src);
    MoveIntoSteps(m, dst, p, dst);
    LookupSetChild(n, p, x, None, dst);
    SetChildUndo(n1, dest, x, f);
    SetChildRestore(n, p, x);
  }

  /** `mkdir(exist_ok=True)` leaves a directory at the path, and calling it
      again changes nothing. */
  lemma MakeDirIdempotent(n: Node, p: Path, size: nat, mtime: int)
    requires MakeDir(n, p, size, mtime).Ok?
    ensures IsDir(MakeDir(n, p, size, mtime).value, p)
    ensures MakeDir(MakeDir(n, p, size, mtime).value, p, size, mtime) == MakeDir(n, p, size, mtime)
  {
    if !IsDir(n, p) {
      assert p == Parent(p) + [Name(p)];
      LookupSetChild(n, Parent(p), Name(p), Some(Dir(size, mtime, map[])), p);
      assert p[|Parent(p)| + 1..] == [];
    }
  }

  /** `mkdir(exist_ok=True)` succeeds only where there is a directory or
      nothing, and changes no path other than the new directory and the
      directories above it. */
  lemma MakeDirFrame(n: Node, p: Path, size: nat, mtime: int, q: Path)
    requires MakeDir(n, p, size, mtime).Ok?
    ensures IsDir(n, p) || !Exists(n, p)
    ensures !IsPrefix(q, p) ==> Lookup(MakeDir(n, p, size, mtime).value, q) == Lookup(n, q)
  {
    if !IsDir(n, p) {
      var empty := Dir(size, mtime, map[]);
      assert p == Parent(p) + [Name(p)];
      LookupSetChild(n, Parent(p), Name(p), Some(empty), q);
      if IsPrefix(p, q) && q != p {
        var rest := q[|p|..];
        assert q == p + rest;
        LookupAppend(n, p, rest);
        assert rest != [] && rest[0] !in empty.children;
      }
      PrefixTransitive(q, Parent(p), p);
    }
  }

  /** `os.rename` to a free name in the same directory. */
  function OsRename(n: Node, src: Path, dst: Path): Result<Node, OsError>
    requires src != [] && dst != [] && Parent(dst) == Parent(src) && !Exists(n, dst)
  {
    if Exists(n, src) then Ok(Rename(n, src, dst)) else Err(SourceMissing)
  }

  /** The tree after a call: the new one, or the old one when it raised. */
  function After(r: Result<Node, OsError>, before: Node): Node
  {
    if r.Ok? then r.value else before
  }

  function ErrorOf(r: Result<Node, OsError>): Option<OsError>
  {
    if r.Ok? then None else Some(r.error)
  }

  /** The state of the filesystem, changed in place by the calls the
      operations make. */
  class FileSystem {
    var root: Node

    constructor (root: Node)
      ensures this.root == root
    {
      this.root := root;
    }

    /** `Path.rename` to a target that does not exist. */
    method Rename(src: Path, dst: Path) returns (err: Option<OsError>)
      requires src != [] && dst != [] && Parent(dst) == Parent(src) && !Exists(root, dst)
      modifies this
      ensures root == After(OsRename(old(root), src, dst), old(root))
      ensures err == ErrorOf(OsRename(old(root), src, dst))
    {
      var r := OsRename(root, src, dst);
      if r.Ok? { root := r.value; err := None; } else { err := Some(r.error); }
    }

    /** `Path.mkdir(exist_ok=True)`; a new directory gets the given size and
        modification time. */
    method MakeDirExistOk(p: Path, size: nat, mtime: int) returns (err: Option<OsError>)
      modifies this
      ensures root == After(MakeDir(old(root), p, size, mtime), old(root))
      ensures err == ErrorOf(MakeDir(old(root), p, size, mtime))
      ensures err.None? ==> IsDir(root, p)
    {
      var r := MakeDir(root, p, size, mtime);
      if r.Ok? {
        MakeDirIdempotent(root, p, size, mtime);
        root := r.value; err := None;
      } else {
        err := Some(r.error);
      }
    }

    /** `shutil.move(src, dest)` for a directory `dest`. */
    method Move(src: Path, dest: Path) returns (err: Option<OsError>)
      requires IsDir(root, dest)
      modifies this
      ensures root == After(ShutilMove(old(root), src, dest), old(root))
      ensures err == ErrorOf(ShutilMove(old(root), src, dest))
    {
      var r := ShutilMove(root, src, dest);
      if r.Ok? { root := r.value; err := None; } else { err := Some(r.error); }
    }
  }
}
