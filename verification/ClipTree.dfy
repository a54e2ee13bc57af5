/** The tree that internal/clipfs mounts: what placing and removing a clip does to it, and the tree that a
    set of clips should have. A tree is a table of its nodes below the root, by their path. */
module ClipTree {
  import opened Basics

  /** A clip's path below the mount, without extension: its folders and its name. */
  datatype ClipPath = ClipPath(dir: seq<string>, name: string)

  /** What is served for a clip; layouts and documents are opaque. */
  datatype Entry = Entry(layout: nat, nfo: Option<nat>)

  datatype Node = Dir | Media(path: ClipPath, layout: nat) | Nfo(data: nat)

  type Tree = map<seq<string>, Node>

  type Entries = map<ClipPath, Entry>

  function MediaPath(p: ClipPath): seq<string> { p.dir + [p.name + ".mkv"] }

  function NfoPath(p: ClipPath): seq<string> { p.dir + [p.name + ".nfo"] }

  function Lookup(t: Tree, q: seq<string>): Option<Node> {
    if q in t then Some(t[q]) else None
  }

  // ---------------------------------------------------------------- operations

  /** t without the node at q and everything below it. */
  function Without(t: Tree, q: seq<string>): Tree {
    map x | x in t && !(q <= x) :: t[x]
  }

  /** RmChild, when the child is there. */
  function Removed(t: Tree, q: seq<string>): Tree { if q in t then Without(t, q) else t }

  /** AddChild with overwrite: a replaced node goes with everything below it. */
  function Put(t: Tree, q: seq<string>, n: Node): Tree { Without(t, q)[q := n] }

  function AddDirs(t: Tree, dir: seq<string>): Tree {
    if dir == [] then t else
    var u := AddDirs(t, dir[..|dir| - 1]);
    if dir in u then u else u[dir := Dir]
  }

  function SetNfo(t: Tree, p: ClipPath, nfo: Option<nat>): Tree {
    match nfo
    case Some(data) => Put(t, NfoPath(p), Nfo(data))
    case None => Removed(t, NfoPath(p))
  }

  function Place(t: Tree, p: ClipPath, e: Entry): Tree {
    SetNfo(Put(AddDirs(t, p.dir), MediaPath(p), Media(p, e.layout)), p, e.nfo)
  }

  predicate HasChild(t: Tree, dir: seq<string>) {
    exists x :: x in t && |x| == |dir| + 1 && dir <= x
  }

  /** Removes empty directories from dir upwards. */
  function Prune(t: Tree, dir: seq<string>): Tree {
    if dir == [] || dir !in t || HasChild(t, dir) then t
    else Prune(Without(t, dir), dir[..|dir| - 1])
  }

  /** Every folder of dir is there. */
  predicate DirFound(t: Tree, dir: seq<string>) {
    forall k :: 0 < k <= |dir| ==> dir[..k] in t
  }

  function Drop(t: Tree, p: ClipPath): Tree {
    if !DirFound(t, p.dir) then t
    else Prune(Removed(Removed(t, MediaPath(p)), NfoPath(p)), p.dir)
  }

  // ---------------------------------------------------------------- the tree of a set of clips

  predicate HasSuffix(s: string, suffix: string) {
    |s| >= |suffix| && s[|s| - |suffix|..] == suffix
  }

  /** The clip whose .mkv or .nfo file would be at q. */
  function Owner(q: seq<string>): ClipPath
    requires q != [] && |q[|q| - 1]| >= 4
  {
    var last := q[|q| - 1];
    ClipPath(q[..|q| - 1], last[..|last| - 4])
  }

  /** What the mounted tree should have at q. */
  ghost function Wanted(es: Entries, q: seq<string>): Option<Node> {
    if q == [] then None
    else if HasSuffix(q[|q| - 1], ".mkv") && Owner(q) in es then Some(Media(Owner(q), es[Owner(q)].layout))
    else if HasSuffix(q[|q| - 1], ".nfo") && Owner(q) in es && es[Owner(q)].nfo.Some? then
      Some(Nfo(es[Owner(q)].nfo.value))
    else if exists p :: p in es && q <= p.dir then Some(Dir)
    else None
  }

  /** t is the tree of es. */
  ghost predicate Shows(t: Tree, es: Entries) {
    forall q :: Lookup(t, q) == Wanted(es, q)
  }

  /** A folder of b is where a file of a goes. */
  predicate Clash(a: ClipPath, b: ClipPath) {
    MediaPath(a) <= b.dir || NfoPath(a) <= b.dir
  }

  predicate NoClash(es: Entries) {
    forall a, b :: a in es && b in es ==> !Clash(a, b)
  }

  /** A set of clips has one tree only. */
  lemma OneTree(t: Tree, u: Tree, es: Entries)
    requires Shows(t, es) && Shows(u, es)
    ensures t == u
  {
    forall q
      ensures (q in t <==> q in u) && (q in t ==> t[q] == u[q])
    {
      assert Lookup(t, q) == Wanted(es, q) == Lookup(u, q);
    }
  }

  // ---------------------------------------------------------------- file names

  lemma Suffixes(name: string)
    ensures HasSuffix(name + ".mkv", ".mkv") && HasSuffix(name + ".nfo", ".nfo")
    ensures !HasSuffix(name + ".mkv", ".nfo") && !HasSuffix(name + ".nfo", ".mkv")
  {
    var m, n := name + ".mkv", name + ".nfo";
    assert m[|m| - 4..] == ".mkv" && n[|n| - 4..] == ".nfo";
    assert ".mkv"[1] != ".nfo"[1];
  }

  lemma OwnerOf(p: ClipPath)
    ensures Owner(MediaPath(p)) == p && Owner(NfoPath(p)) == p && MediaPath(p) != NfoPath(p)
    ensures HasSuffix(MediaPath(p)[|p.dir|], ".mkv") && HasSuffix(NfoPath(p)[|p.dir|], ".nfo")
    ensures !HasSuffix(MediaPath(p)[|p.dir|], ".nfo") && !HasSuffix(NfoPath(p)[|p.dir|], ".mkv")
  {
    Suffixes(p.name);
    var m, n := MediaPath(p), NfoPath(p);
    assert m[..|m| - 1] == p.dir && n[..|n| - 1] == p.dir;
    assert (p.name + ".mkv")[..|p.name|] == p.name && (p.name + ".nfo")[..|p.name|] == p.name;
  }

  /** A path with a file's suffix is the file of its owner. */
  lemma OwnsPath(q: seq<string>)
    requires q != []
    ensures HasSuffix(q[|q| - 1], ".mkv") ==> MediaPath(Owner(q)) == q
    ensures HasSuffix(q[|q| - 1], ".nfo") ==> NfoPath(Owner(q)) == q
  {
    var last := q[|q| - 1];
    InitLast(q);
    if |last| >= 4 { assert last == last[..|last| - 4] + last[|last| - 4..]; }
  }

  // ---------------------------------------------------------------- placing

  lemma {:induction false} AddDirsAt(t: Tree, dir: seq<string>, q: seq<string>)
    ensures Lookup(AddDirs(t, dir), q) == if q != [] && q <= dir && q !in t then Some(Dir) else Lookup(t, q)
  {
    if dir != [] {
      var init := dir[..|dir| - 1];
      AddDirsAt(t, init, q);
      if q <= dir && q != dir { assert q <= init; }
      if q == dir { assert !(q <= init); }
      if q <= init { assert q <= dir; }
    }
  }

  lemma PutAt(t: Tree, x: seq<string>, n: Node, q: seq<string>)
    ensures Lookup(Put(t, x, n), q) == if q == x then Some(n) else if x <= q then None else Lookup(t, q)
  {
  }

  lemma SetNfoAt(t: Tree, p: ClipPath, nfo: Option<nat>, q: seq<string>)
    ensures Lookup(SetNfo(t, p, nfo), q) ==
      if q == NfoPath(p) then (if nfo.Some? then Some(Nfo(nfo.value)) else None)
      else if NfoPath(p) <= q && (nfo.Some? || NfoPath(p) in t) then None
      else Lookup(t, q)
  {
    if nfo.Some? { PutAt(t, NfoPath(p), Nfo(nfo.value), q); }
  }

  /** The two files of a clip stand beside each other, and not in its folders. */
  lemma Siblings(p: ClipPath)
    ensures !(NfoPath(p) <= MediaPath(p)) && !(MediaPath(p) <= NfoPath(p)) && NfoPath(p) != MediaPath(p)
    ensures !(NfoPath(p) <= p.dir) && !(MediaPath(p) <= p.dir)
  {
    OwnerOf(p);
  }

  /** What placing a clip does to the node at q. */
  lemma PlaceAt(t: Tree, p: ClipPath, e: Entry, q: seq<string>)
    ensures Lookup(Place(t, p, e), q) ==
      if q == NfoPath(p) then (if e.nfo.Some? then Some(Nfo(e.nfo.value)) else None)
      else if NfoPath(p) <= q && (e.nfo.Some? || NfoPath(p) in t) then None
      else if q == MediaPath(p) then Some(Media(p, e.layout))
      else if MediaPath(p) <= q then None
      else if q != [] && q <= p.dir && q !in t then Some(Dir)
      else Lookup(t, q)
  {
    hide AddDirs, SetNfo, Put, MediaPath, NfoPath;
    var u := AddDirs(t, p.dir);
    var v := Put(u, MediaPath(p), Media(p, e.layout));
    Siblings(p);
    AddDirsAt(t, p.dir, q);
    AddDirsAt(t, p.dir, NfoPath(p));
    PutAt(u, MediaPath(p), Media(p, e.layout), q);
    PutAt(u, MediaPath(p), Media(p, e.layout), NfoPath(p));
    SetNfoAt(v, p, e.nfo, q);
  }

  // ---------------------------------------------------------------- the tree stays right

  /** In a tree without clashes nothing stands below a file, and no file is a folder. */
  lemma FilesAreLeaves(es: Entries, p: ClipPath, q: seq<string>)
    requires NoClash(es) && p in es
    ensures MediaPath(p) <= q && q != MediaPath(p) ==> Wanted(es, q) == None
    ensures NfoPath(p) <= q && q != NfoPath(p) ==> Wanted(es, q) == None
  {
    if (MediaPath(p) <= q && q != MediaPath(p)) || (NfoPath(p) <= q && q != NfoPath(p)) {
      OwnsPath(q);
      if a :| a in es && q <= a.dir { assert Clash(p, a); }
      if |q[|q| - 1]| >= 4 && Owner(q) in es { assert !Clash(p, Owner(q)); }
    }
  }

  /** The folders of a clip are folders. */
  lemma FoldersAreFolders(es: Entries, p: ClipPath, q: seq<string>)
    requires NoClash(es) && p in es && q != [] && q <= p.dir
    ensures Wanted(es, q) == Some(Dir)
  {
    OwnsPath(q);
    if |q[|q| - 1]| >= 4 && Owner(q) in es {
      assert !Clash(Owner(q), p);
    }
  }

  lemma FilesAreFiles(es: Entries, p: ClipPath)
    requires p in es
    ensures Wanted(es, MediaPath(p)) == Some(Media(p, es[p].layout))
    ensures NoClash(es) ==> Wanted(es, NfoPath(p)) == if es[p].nfo.Some? then Some(Nfo(es[p].nfo.value)) else None
  {
    OwnerOf(p);
    if a :| a in es && NfoPath(p) <= a.dir { assert Clash(p, a); }
  }

  /** A node that has nothing to do with p is wanted with p as without. */
  lemma OthersUnmoved(es: Entries, fs: Entries, p: ClipPath, q: seq<string>)
    requires forall a :: a != p ==> (a in es <==> a in fs) && (a in es ==> es[a] == fs[a])
    requires q != MediaPath(p) && q != NfoPath(p) && !(q <= p.dir)
    ensures Wanted(es, q) == Wanted(fs, q)
  {
    if q != [] { OwnsPath(q); }
  }

  lemma Smaller(es: Entries, fs: Entries)
    requires NoClash(fs) && es.Keys <= fs.Keys
    ensures NoClash(es)
  {
  }

  /** Placing a clip in the tree of es gives the tree of es with that clip. */
  lemma PlaceShows(t: Tree, es: Entries, p: ClipPath, e: Entry)
    requires Shows(t, es) && NoClash(es[p := e])
    ensures Shows(Place(t, p, e), es[p := e])
  {
    hide Place, MediaPath, NfoPath, NoClash, Wanted;
    var fs := es[p := e];
    Siblings(p);
    FilesAreFiles(fs, p);
    forall q
      ensures Lookup(Place(t, p, e), q) == Wanted(fs, q)
    {
      PlaceAt(t, p, e, q);
      assert Lookup(t, q) == Wanted(es, q);
      FilesAreLeaves(fs, p, q);
      if q == [] {
        NothingAtRoot(es);
        NothingAtRoot(fs);
      } else if q <= p.dir {
        FoldersAreFolders(fs, p, q);
        FolderOrNothing(es, p, e, q);
      } else if q != MediaPath(p) && q != NfoPath(p) {
        OthersUnmoved(es, fs, p, q);
      }
    }
  }

  lemma NothingAtRoot(es: Entries)
    ensures Wanted(es, []) == None
  {
  }

  lemma FolderOrNothing(es: Entries, p: ClipPath, e: Entry, q: seq<string>)
    requires NoClash(es[p := e]) && q != [] && q <= p.dir
    ensures Wanted(es, q) == Some(Dir) || Wanted(es, q) == None
  {
    OwnsPath(q);
    var fs := es[p := e];
    if |q[|q| - 1]| >= 4 && Owner(q) in es { assert Owner(q) in fs && p in fs && !Clash(Owner(q), p); }
  }

  // ---------------------------------------------------------------- removing

  /** t is the tree of es, except that the folders of dir may be there without need. */
  ghost predicate Almost(t: Tree, es: Entries, dir: seq<string>) {
    forall q :: Lookup(t, q) == if q != [] && q <= dir && Wanted(es, q) == None then Some(Dir) else Wanted(es, q)
  }

  lemma WantedParent(es: Entries, dir: seq<string>, x: seq<string>)
    requires dir != [] && |x| == |dir| + 1 && dir <= x && Wanted(es, x).Some?
    ensures exists p :: p in es && dir <= p.dir
  {
    OwnsPath(x);
    if p :| p in es && x <= p.dir {
      assert dir <= p.dir;
    } else {
      var p := Owner(x);
      assert p in es && dir <= p.dir;
    }
  }

  lemma WantedChild(es: Entries, dir: seq<string>, p: ClipPath)
    requires p in es && dir <= p.dir && NoClash(es)
    ensures exists x :: |x| == |dir| + 1 && dir <= x && Wanted(es, x).Some?
  {
    FilesAreFiles(es, p);
    if dir == p.dir {
      assert dir <= MediaPath(p);
    } else {
      var x := p.dir[..|dir| + 1];
      FoldersAreFolders(es, p, x);
      assert dir <= x;
    }
  }

  lemma {:induction false} PruneShows(t: Tree, es: Entries, dir: seq<string>)
    requires NoClash(es) && Almost(t, es, dir)
    requires forall q :: q != [] && q <= dir ==> Wanted(es, q) == None || Wanted(es, q) == Some(Dir)
    ensures Shows(Prune(t, dir), es)
    decreases |dir|
  {
    hide Wanted, NoClash;
    if dir == [] {
      NothingAtRoot(es);
    } else {
      assert Lookup(t, dir) == Some(Dir);
      if HasChild(t, dir) {
        StillNeeded(t, es, dir);
      } else {
        NotNeeded(t, es, dir);
        WithoutFolder(t, es, dir);
        PruneShows(Without(t, dir), es, dir[..|dir| - 1]);
      }
    }
  }

  /** A folder with a child is a folder of a clip, and so are all above it. */
  lemma StillNeeded(t: Tree, es: Entries, dir: seq<string>)
    requires NoClash(es) && Almost(t, es, dir) && dir != [] && HasChild(t, dir)
    ensures Shows(t, es)
  {
    hide Wanted, NoClash;
    var x :| x in t && |x| == |dir| + 1 && dir <= x;
    assert Lookup(t, x).Some? && Lookup(t, x) == Wanted(es, x);
    WantedParent(es, dir, x);
    var p :| p in es && dir <= p.dir;
    forall q
      ensures Lookup(t, q) == Wanted(es, q)
    {
      if q != [] && q <= dir {
        assert q <= p.dir;
        FoldersAreFolders(es, p, q);
      }
    }
  }

  /** A folder without a child is no clip's. */
  lemma NotNeeded(t: Tree, es: Entries, dir: seq<string>)
    requires NoClash(es) && Almost(t, es, dir) && dir != [] && !HasChild(t, dir)
    ensures forall p :: p in es ==> !(dir <= p.dir)
  {
    hide Wanted, NoClash;
    forall p | p in es
      ensures !(dir <= p.dir)
    {
      if dir <= p.dir { ChildShown(t, es, dir, p); }
    }
  }

  lemma ChildShown(t: Tree, es: Entries, dir: seq<string>, p: ClipPath)
    requires NoClash(es) && Almost(t, es, dir) && p in es && dir <= p.dir
    ensures HasChild(t, dir)
  {
    hide Wanted, NoClash;
    WantedChild(es, dir, p);
    var x :| |x| == |dir| + 1 && dir <= x && Wanted(es, x).Some?;
    assert Lookup(t, x) == Wanted(es, x);
  }

  lemma WithoutFolder(t: Tree, es: Entries, dir: seq<string>)
    requires Almost(t, es, dir) && dir != [] && forall p :: p in es ==> !(dir <= p.dir)
    requires Wanted(es, dir) == None || Wanted(es, dir) == Some(Dir)
    ensures Almost(Without(t, dir), es, dir[..|dir| - 1])
  {
    var init := dir[..|dir| - 1];
    forall q
      ensures Lookup(Without(t, dir), q) == if q != [] && q <= init && Wanted(es, q) == None then Some(Dir)
        else Wanted(es, q)
    {
      assert q <= dir ==> q == dir || q <= init;
      assert q <= init ==> q <= dir;
      if dir <= q {
        OwnsPath(q);
        if |q| > |dir| && |q[|q| - 1]| >= 4 && Owner(q) in es { assert !(dir <= Owner(q).dir); }
        assert forall p :: p in es ==> !(q <= p.dir);
      }
    }
  }

  lemma RemovedAt(t: Tree, x: seq<string>, q: seq<string>)
    ensures Lookup(Removed(t, x), q) == if x <= q && x in t then None else Lookup(t, q)
  {
  }

  /** Removing a clip from the tree of es gives the tree of es without it. */
  lemma DropShows(t: Tree, es: Entries, p: ClipPath)
    requires Shows(t, es) && NoClash(es) && p in es
    ensures Shows(Drop(t, p), es - {p})
  {
    hide Wanted, NoClash, Prune, Removed, MediaPath, NfoPath;
    var fs := es - {p};
    Smaller(fs, es);
    FilesAreFiles(es, p);
    forall k | 0 < k <= |p.dir|
      ensures p.dir[..k] in t
    {
      FoldersAreFolders(es, p, p.dir[..k]);
      assert Lookup(t, p.dir[..k]) == Some(Dir);
    }
    var u := Removed(Removed(t, MediaPath(p)), NfoPath(p));
    forall q
      ensures Lookup(u, q) == if q != [] && q <= p.dir && Wanted(fs, q) == None then Some(Dir) else Wanted(fs, q)
      ensures q != [] && q <= p.dir ==> Wanted(fs, q) == None || Wanted(fs, q) == Some(Dir)
    {
      DroppedAt(t, es, p, q);
    }
    PruneShows(u, fs, p.dir);
  }

  lemma DroppedAt(t: Tree, es: Entries, p: ClipPath, q: seq<string>)
    requires Shows(t, es) && NoClash(es) && p in es
    ensures var fs := es - {p}; var u := Removed(Removed(t, MediaPath(p)), NfoPath(p));
      && Lookup(u, q) == (if q != [] && q <= p.dir && Wanted(fs, q) == None then Some(Dir) else Wanted(fs, q))
      && (q != [] && q <= p.dir ==> Wanted(fs, q) == None || Wanted(fs, q) == Some(Dir))
  {
    hide Wanted, NoClash, Removed, MediaPath, NfoPath;
    var fs := es - {p};
    assert fs[p := es[p]] == es;
    Siblings(p);
    RemovedAt(t, MediaPath(p), q);
    RemovedAt(Removed(t, MediaPath(p)), NfoPath(p), q);
    RemovedAt(t, MediaPath(p), NfoPath(p));
    assert Lookup(t, q) == Wanted(es, q) && Lookup(t, MediaPath(p)) == Wanted(es, MediaPath(p));
    FilesAreFiles(es, p);
    if q == [] {
      NothingAtRoot(es);
      NothingAtRoot(fs);
      NotBelow(p);
    } else if q <= p.dir {
      FoldersAreFolders(es, p, q);
      FolderOrNothing(fs, p, es[p], q);
      NotAbove(p, q);
    } else if q == MediaPath(p) || q == NfoPath(p) {
      Unwanted(es, p, q);
    } else {
      OthersUnmoved(es, fs, p, q);
      FilesAreLeaves(es, p, q);
    }
  }

  lemma NotBelow(p: ClipPath)
    ensures !(MediaPath(p) <= []) && !(NfoPath(p) <= [])
  {
  }

  lemma NotAbove(p: ClipPath, q: seq<string>)
    requires q <= p.dir
    ensures !(MediaPath(p) <= q) && !(NfoPath(p) <= q)
  {
  }

  lemma Unwanted(es: Entries, p: ClipPath, q: seq<string>)
    requires NoClash(es) && p in es && (q == MediaPath(p) || q == NfoPath(p))
    ensures Wanted(es - {p}, q) == None
  {
    OwnerOf(p);
    if a :| a in es && q <= a.dir { assert Clash(p, a); }
  }

  /** No folder of the tree is empty. */
  lemma NoEmptyFolder(t: Tree, es: Entries, dir: seq<string>)
    requires Shows(t, es) && NoClash(es) && Lookup(t, dir) == Some(Dir)
    ensures HasChild(t, dir)
  {
    assert Lookup(t, dir) == Wanted(es, dir);
    var p :| p in es && dir <= p.dir;
    WantedChild(es, dir, p);
    hide Wanted;
    var x :| |x| == |dir| + 1 && dir <= x && Wanted(es, x).Some?;
    assert Lookup(t, x) == Wanted(es, x);
  }

  // ---------------------------------------------------------------- when the order matters

  lemma TwoClips(a: ClipPath, ea: Entry, b: ClipPath, eb: Entry)
    requires a != b && !Clash(a, b) && !Clash(b, a)
    ensures NoClash(map[a := ea, b := eb]) && NoClash(map[a := ea])
  {
    hide Clash;
    NotOwnFolder(a);
    NotOwnFolder(b);
  }

  lemma NotOwnFolder(p: ClipPath)
    ensures !Clash(p, p)
  {
  }

  lemma EmptyShows()
    ensures Shows(map[], map[])
  {
  }

  lemma Covers(a: ClipPath, ea: Entry, b: ClipPath, eb: Entry)
    requires Clash(a, b)
    ensures MediaPath(b) !in Place(Place(map[], b, eb), a, ea)
    ensures MediaPath(b) in Place(Place(map[], a, ea), b, eb)
  {
    hide Place, Clash, HasSuffix, Owner;
    var q := MediaPath(b);
    ClashBelow(a, b);
    Siblings(a);
    Siblings(b);
    PlaceAt(Place(map[], b, eb), a, ea, q);
    PlaceAt(map[], b, eb, NfoPath(a));
    PlaceAt(Place(map[], a, ea), b, eb, q);
  }

  lemma ClashBelow(a: ClipPath, b: ClipPath)
    requires Clash(a, b)
    ensures MediaPath(a) <= b.dir || NfoPath(a) <= b.dir
    ensures MediaPath(a) <= b.dir ==> MediaPath(a) <= MediaPath(b) && MediaPath(a) != MediaPath(b)
    ensures NfoPath(a) <= b.dir ==> NfoPath(a) <= MediaPath(b) && NfoPath(a) != MediaPath(b) && NfoPath(a) != []
    ensures NfoPath(a) <= b.dir ==>
      NfoPath(a) != NfoPath(b) && !(NfoPath(b) <= NfoPath(a)) && NfoPath(a) != MediaPath(a)
    ensures NfoPath(a) <= b.dir ==> !(MediaPath(b) <= NfoPath(a))
    ensures MediaPath(b) != MediaPath(a) && MediaPath(b) != NfoPath(a)
  {
    Siblings(a);
    Siblings(b);
  }

  /** The order in which two clips are placed matters exactly when a folder of one is where a file of the
      other goes. */
  lemma OrderMatters(a: ClipPath, ea: Entry, b: ClipPath, eb: Entry)
    requires a != b
    ensures Place(Place(map[], a, ea), b, eb) == Place(Place(map[], b, eb), a, ea) <==> !Clash(a, b) && !Clash(b, a)
  {
    hide Place, Clash, NoClash, Wanted;
    if Clash(a, b) {
      Covers(a, ea, b, eb);
    } else if Clash(b, a) {
      Covers(b, eb, a, ea);
    } else {
      TwoClips(a, ea, b, eb);
      TwoClips(b, eb, a, ea);
      var one, other, both := map[a := ea], map[b := eb], map[a := ea, b := eb];
      assert one[b := eb] == both && other[a := ea] == both && map[][a := ea] == one && map[][b := eb] == other;
      EmptyShows();
      PlaceShows(map[], map[], a, ea);
      PlaceShows(map[], map[], b, eb);
      PlaceShows(Place(map[], a, ea), one, b, eb);
      PlaceShows(Place(map[], b, eb), other, a, ea);
      OneTree(Place(Place(map[], a, ea), b, eb), Place(Place(map[], b, eb), a, ea), both);
    }
  }

  /** Two clips that clash: x in the root, and y in a folder named like x's video file. */
  lemma ClashingPair(ea: Entry, eb: Entry)
    ensures var a, b := ClipPath([], "x"), ClipPath(["x.mkv"], "y");
      && Clash(a, b)
      && MediaPath(b) in Place(Place(map[], a, ea), b, eb)
      && MediaPath(b) !in Place(Place(map[], b, eb), a, ea)
      && Place(Place(map[], a, ea), b, eb) != Place(Place(map[], b, eb), a, ea)
  {
    hide Place;
    var a, b := ClipPath([], "x"), ClipPath(["x.mkv"], "y");
    assert "x" + ".mkv" == "x.mkv";
    Covers(a, ea, b, eb);
  }

  // ---------------------------------------------------------------- every history

  /** All clips of es, in some order. */
  predicate Orders(order: seq<ClipPath>, es: Entries) {
    (forall p :: p in order ==> p in es) && forall p :: p in es ==> p in order
  }

  function PlaceAll(t: Tree, es: Entries, order: seq<ClipPath>): Tree
    requires forall p :: p in order ==> p in es
  {
    if order == [] then t else
    var p := order[|order| - 1];
    Place(PlaceAll(t, es, order[..|order| - 1]), p, es[p])
  }

  function Restricted(es: Entries, order: seq<ClipPath>): Entries {
    map p | p in es && p in order :: es[p]
  }

  /** Building the tree from scratch, in any order, gives the tree of the clips. */
  lemma {:induction false} PlaceAllShows(es: Entries, order: seq<ClipPath>)
    requires NoClash(es) && forall p :: p in order ==> p in es
    ensures Shows(PlaceAll(map[], es, order), Restricted(es, order))
  {
    hide Place, NoClash, Shows;
    if order == [] {
      EmptyShows();
      assert Restricted(es, order) == map[];
    } else {
      var init, p := order[..|order| - 1], order[|order| - 1];
      PlaceAllShows(es, init);
      Smaller(Restricted(es, init)[p := es[p]], es);
      PlaceShows(PlaceAll(map[], es, init), Restricted(es, init), p, es[p]);
      InitLast(order);
      assert Restricted(es, init)[p := es[p]] == Restricted(es, order);
    }
  }

  /** The filesystem: the clips that were set, whether it is mounted, and its nodes. */
  datatype Mount = Mount(entries: Entries, mounted: bool, tree: Tree)

  datatype Op = Set(p: ClipPath, e: Entry) | Remove(p: ClipPath) | Add(order: seq<ClipPath>)

  predicate Allowed(m: Mount, op: Op) {
    op.Add? ==> !m.mounted && Orders(op.order, m.entries)
  }

  function After(m: Mount, op: Op): Mount
    requires Allowed(m, op)
  {
    match op
    case Set(p, e) => m.(entries := m.entries[p := e], tree := if m.mounted then Place(m.tree, p, e) else m.tree)
    case Remove(p) =>
      if p !in m.entries then m
      else m.(entries := m.entries - {p}, tree := if m.mounted then Drop(m.tree, p) else m.tree)
    case Add(order) => Mount(m.entries, true, PlaceAll(m.tree, m.entries, order))
  }

  /** Before mounting there is no tree; after it the tree is that of the clips. */
  ghost predicate Consistent(m: Mount) {
    if m.mounted then Shows(m.tree, m.entries) else m.tree == map[]
  }

  lemma StepConsistent(m: Mount, op: Op)
    requires Allowed(m, op) && Consistent(m) && NoClash(m.entries) && NoClash(After(m, op).entries)
    ensures Consistent(After(m, op))
  {
    hide Place, Drop, NoClash, Shows, PlaceAll;
    match op {
      case Set(p, e) => if m.mounted { PlaceShows(m.tree, m.entries, p, e); }
      case Remove(p) => if m.mounted && p in m.entries { DropShows(m.tree, m.entries, p); }
      case Add(order) =>
        PlaceAllShows(m.entries, order);
        assert Restricted(m.entries, order) == m.entries;
    }
  }

  /** Operation k is the last of the first i that sets or removes p, and it sets it. */
  predicate LastSet(ops: seq<Op>, i: nat, p: ClipPath, k: nat)
    requires i <= |ops|
  {
    && k < i && ops[k].Set? && ops[k].p == p
    && forall j :: k < j < i && !ops[j].Add? ==> ops[j].p != p
  }

  /** The clips that operations say there are: those whose last Set or Remove is a Set, with its entry. */
  ghost predicate SetBy(ops: seq<Op>, i: nat, es: Entries)
    requires i <= |ops|
  {
    forall p :: SetAt(ops, i, es, p)
  }

  ghost predicate SetAt(ops: seq<Op>, i: nat, es: Entries, p: ClipPath)
    requires i <= |ops|
  {
    && (p in es <==> exists k: nat :: LastSet(ops, i, p, k))
    && forall k: nat :: LastSet(ops, i, p, k) ==> p in es && es[p] == ops[k].e
  }

  lemma LastSetMore(ops: seq<Op>, i: nat, p: ClipPath, k: nat)
    requires i < |ops|
    ensures LastSet(ops, i + 1, p, k) <==>
      if ops[i].Set? && ops[i].p == p then k == i
      else LastSet(ops, i, p, k) && !(ops[i].Remove? && ops[i].p == p)
  {
  }

  /** The clips after the first i operations are those whose last operation sets them, as it sets them; and the tree
      is built once it has been asked for. */
  lemma {:induction false} Remembered(ms: seq<Mount>, ops: seq<Op>, i: nat, p: ClipPath)
    requires |ms| == |ops| + 1 && ms[0] == Mount(map[], false, map[])
    requires forall k :: 0 <= k < |ops| ==> Allowed(ms[k], ops[k]) && ms[k + 1] == After(ms[k], ops[k])
    requires i < |ms|
    ensures SetAt(ops, i, ms[i].entries, p)
    ensures ms[i].mounted <==> exists k :: 0 <= k < i && ops[k].Add?
  {
    hide Place, Drop, PlaceAll, Orders, LastSet;
    if i == 0 {
      NoneSet(ops, p);
    } else {
      Remembered(ms, ops, i - 1, p);
      assert ms[i - 1 + 1] == After(ms[i - 1], ops[i - 1]);
      forall k: nat
        ensures LastSet(ops, i, p, k) <==>
          if ops[i - 1].Set? && ops[i - 1].p == p then k == i - 1
          else LastSet(ops, i - 1, p, k) && !(ops[i - 1].Remove? && ops[i - 1].p == p)
      {
        LastSetMore(ops, i - 1, p, k);
      }
      if ops[i - 1].Set? && ops[i - 1].p == p {
        assert LastSet(ops, i, p, i - 1);
      } else if p in ms[i].entries {
        var k: nat :| LastSet(ops, i - 1, p, k);
        assert LastSet(ops, i, p, k);
      }
      if k: nat :| LastSet(ops, i, p, k) { assert p in ms[i].entries; }
    }
  }

  lemma NoneSet(ops: seq<Op>, p: ClipPath)
    ensures forall k: nat :: !LastSet(ops, 0, p, k)
  {
  }

  /** After any sequence of clips set and removed, before and after mounting, with the clips placed in any
      order at mounting, the mounted tree is the tree of the clips whose last operation sets them, as long as clips
      never clash. */
  lemma {:induction false} AnyHistory(ms: seq<Mount>, ops: seq<Op>, i: nat)
    requires |ms| == |ops| + 1 && ms[0] == Mount(map[], false, map[])
    requires forall k :: 0 <= k < |ops| ==> Allowed(ms[k], ops[k]) && ms[k + 1] == After(ms[k], ops[k])
    requires forall k :: 0 <= k < |ms| ==> NoClash(ms[k].entries)
    requires i < |ms|
    ensures SetBy(ops, i, ms[i].entries) && (ms[i].mounted <==> exists k :: 0 <= k < i && ops[k].Add?)
    ensures if ms[i].mounted then Shows(ms[i].tree, ms[i].entries) else ms[i].tree == map[]
  {
    hide NoClash, Shows, Place, Drop, PlaceAll, Orders, SetAt;
    forall p
      ensures SetAt(ops, i, ms[i].entries, p)
    {
      Remembered(ms, ops, i, p);
    }
    Remembered(ms, ops, i, ClipPath([], ""));
    if i > 0 {
      AnyHistory(ms, ops, i - 1);
      assert ms[i - 1 + 1] == After(ms[i - 1], ops[i - 1]);
      StepConsistent(ms[i - 1], ops[i - 1]);
    }
  }
}
