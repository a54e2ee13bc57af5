/** The Root of internal/clipfs: its entries, its mounted flag and its nodes, updated in place. */
module ClipFs {
  import opened ClipTree

  lemma {:induction false} AddDirsNext(t: Tree, dir: seq<string>, k: nat)
    requires k < |dir|
    ensures var u := AddDirs(t, dir[..k]);
      AddDirs(t, dir[..k + 1]) == if dir[..k + 1] in u then u else u[dir[..k + 1] := Dir]
  {
    assert dir[..k + 1][..k] == dir[..k];
  }

  class Root {
    var entries: map<ClipPath, Entry>
    var mounted: bool
    var nodes: Tree

    constructor ()
      ensures AsMount() == Mount(map[], false, map[])
    {
      entries, mounted, nodes := map[], false, map[];
    }

    ghost function AsMount(): Mount
      reads this
    {
      Mount(entries, mounted, nodes)
    }

    /** Walks down from the root. */
    method LookupDir(dir: seq<string>) returns (found: bool)
      ensures found <==> DirFound(nodes, dir)
    {
      for i := 0 to |dir|
        invariant forall k :: 0 < k <= i ==> dir[..k] in nodes
      {
        if dir[..i + 1] !in nodes {
          return false;
        }
      }
      return true;
    }

    method PlaceClip(p: ClipPath, e: Entry)
      modifies `nodes
      ensures nodes == Place(old(nodes), p, e)
    {
      hide Without;
      ghost var was := nodes;
      assert p.dir[..0] == [];
      for i := 0 to |p.dir|
        invariant nodes == AddDirs(was, p.dir[..i])
      {
        AddDirsNext(was, p.dir, i);
        if p.dir[..i + 1] !in nodes {
          nodes := nodes[p.dir[..i + 1] := Dir];
        }
      }
      assert p.dir[..|p.dir|] == p.dir;
      nodes := Put(nodes, MediaPath(p), Media(p, e.layout));
      if e.nfo.Some? {
        nodes := Put(nodes, NfoPath(p), Nfo(e.nfo.value));
      } else if NfoPath(p) in nodes {
        nodes := Without(nodes, NfoPath(p));
      }
    }

    method PruneFrom(start: seq<string>)
      modifies `nodes
      ensures nodes == Prune(old(nodes), start)
    {
      hide Without;
      var dir := start;
      while dir != []
        invariant Prune(nodes, dir) == Prune(old(nodes), start)
        decreases |dir|
      {
        if dir !in nodes || HasChild(nodes, dir) {
          return;
        }
        nodes := Without(nodes, dir);
        dir := dir[..|dir| - 1];
      }
    }

    /** SetClip adds or replaces a clip. */
    method SetClip(p: ClipPath, e: Entry)
      modifies this
      ensures AsMount() == After(old(AsMount()), Set(p, e))
      ensures entries == old(entries)[p := e] && mounted == old(mounted)
      ensures nodes == if mounted then Place(old(nodes), p, e) else old(nodes)
      ensures old(Consistent(AsMount()) && NoClash(entries)) && NoClash(entries) ==>
        if mounted then Shows(nodes, old(entries)[p := e]) else nodes == map[]
    {
      hide Place, NoClash, Shows;
      ghost var was := AsMount();
      entries := entries[p := e];
      if mounted {
        PlaceClip(p, e);
      }
      if Consistent(was) && NoClash(was.entries) && NoClash(entries) { StepConsistent(was, Set(p, e)); }
    }

    /** RemoveClip removes a clip and any folders left empty. */
    method RemoveClip(p: ClipPath)
      modifies this
      ensures AsMount() == After(old(AsMount()), Remove(p))
      ensures entries == old(entries) - {p} && mounted == old(mounted)
      ensures nodes == if p in old(entries) && mounted then Drop(old(nodes), p) else old(nodes)
      ensures old(Consistent(AsMount()) && NoClash(entries)) ==>
        NoClash(entries) && if mounted then Shows(nodes, old(entries) - {p}) else nodes == map[]
    {
      hide NoClash, Without, Prune, Shows;
      ghost var was := AsMount();
      if Consistent(was) && NoClash(was.entries) { StillConsistent(was, p); }
      if p !in entries {
        return;
      }
      entries := entries - {p};
      if !mounted {
        return;
      }
      var found := LookupDir(p.dir);
      if !found {
        return;
      }
      if MediaPath(p) in nodes {
        nodes := Without(nodes, MediaPath(p));
      }
      if NfoPath(p) in nodes {
        nodes := Without(nodes, NfoPath(p));
      }
      PruneFrom(p.dir);
    }

    lemma StillConsistent(was: Mount, p: ClipPath)
      requires Consistent(was) && NoClash(was.entries)
      ensures Consistent(After(was, Remove(p))) && NoClash(After(was, Remove(p)).entries)
    {
      hide Consistent, NoClash, Drop;
      Smaller(After(was, Remove(p)).entries, was.entries);
      StepConsistent(was, Remove(p));
    }

    /** OnAdd builds the tree from the clips set before mounting, in whatever order the map gives them. */
    method OnAdd() returns (ghost order: seq<ClipPath>)
      requires !mounted
      modifies this
      ensures Allowed(old(AsMount()), Add(order)) && AsMount() == After(old(AsMount()), Add(order))
      ensures entries == old(entries) && mounted
      ensures old(Consistent(AsMount()) && NoClash(entries)) ==> Shows(nodes, old(entries))
    {
      hide Place, NoClash, Shows;
      ghost var was := AsMount();
      order := [];
      var todo := entries.Keys;
      while todo != {}
        invariant todo <= entries.Keys && entries == was.entries && !mounted
        invariant forall p :: p in order <==> p in entries && p !in todo
        invariant nodes == PlaceAll(was.tree, entries, order)
        decreases |todo|
      {
        var p :| p in todo;
        todo := todo - {p};
        assert (order + [p])[..|order|] == order;
        order := order + [p];
        PlaceClip(p, entries[p]);
      }
      mounted := true;
      if Consistent(was) && NoClash(was.entries) { StepConsistent(was, Add(order)); }
    }
  }
}
