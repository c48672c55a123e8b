/**
  The file system as an object that I/O calls change in place. A call may fail, and a call
  made of several steps may fail between them, unless the file system is `reliable`: then
  every call succeeds whose own conditions hold. `history` records every state there ever
  was. A directory that `read_dir` lists may break off, reliable or not: `cut` says which
  listings do, and what they yielded before.
*/
module FileSystems {
  import opened Options
  import opened FileTrees

  predicate Listed(cut: map<Path, set<string>>, dir: Path, name: string) {
    dir in cut ==> name in cut[dir]
  }

  /** The names a listing of `dir` yields. */
  function Listing(ns: Nodes, cut: map<Path, set<string>>, dir: Path): set<string> {
    set q | q in ns && |q| == |dir| + 1 && dir < q && Listed(cut, dir, q[|dir|]) :: q[|dir|]
  }

  lemma {:induction false} LongestExists(s: set<Path>) returns (q: Path)
    requires s != {}
    ensures q in s && forall r | r in s :: |r| <= |q|
    decreases |s|
  {
    q :| q in s;
    if s != {q} {
      var other := LongestExists(s - {q});
      assert forall r | r in s :: r == q || r in s - {q};
      if |q| < |other| { q := other; }
    }
  }

  function Under(ns: Nodes, p: Path): set<Path> {
    set q | q in ns && p <= q
  }

  /** Nothing new, and nothing changed outside `p`. */
  ghost predicate Removes(before: Nodes, after: Nodes, p: Path) {
    && (forall q | q in after :: q in before && after[q] == before[q])
    && (forall q | q in before && !(p <= q) :: q in after)
  }

  /** Only directories were made, on the way to `p`. */
  ghost predicate MakesWay(before: Nodes, after: Nodes, p: Path) {
    Adds(before, after) && forall q | q in after && q !in before :: q <= p && after[q] == Dir
  }

  lemma WayGoesOn(before: Nodes, after: Nodes, p: Path)
    requires MakesWay(before, after, Parent(p))
    ensures MakesWay(before, after, p)
  {
    assert Parent(p) <= p;
  }

  lemma LastOfTheWay(before: Nodes, mid: Nodes, p: Path)
    requires MakesWay(before, mid, Parent(p)) && p !in before && p != []
    ensures p !in mid && MakesWay(before, mid, p) && MakesWay(before, mid[p := Dir], p)
  {
    WayGoesOn(before, mid, p);
    assert !(p <= Parent(p));
  }

  /** A leaf's removal leaves a tree. */
  lemma WithoutLeaf(ns: Nodes, p: Path, leaf: Path)
    requires Tree(ns) && leaf != [] && leaf in ns && p <= leaf && forall r | r in Under(ns, p) :: |r| <= |leaf|
    ensures Tree(ns - {leaf})
  {
    forall q | q in ns - {leaf} && q != [] ensures Parent(q) in ns - {leaf} && (ns - {leaf})[Parent(q)] == Dir {
      assert Parent(q) == leaf ==> leaf <= q && q in Under(ns, p);
    }
  }

  lemma RemovesOneMore(before: Nodes, ns: Nodes, p: Path, leaf: Path)
    requires Removes(before, ns, p) && p <= leaf
    ensures Removes(before, ns - {leaf}, p) && Under(ns - {leaf}, p) == Under(ns, p) - {leaf}
  {
  }

  class FileSystem {
    var nodes: Nodes
    ghost var history: seq<Nodes>
    const cut: map<Path, set<string>>
    const reliable: bool

    ghost predicate Valid()
      reads this
    {
      Tree(nodes) && history != [] && history[|history| - 1] == nodes
    }

    constructor (nodes: Nodes, cut: map<Path, set<string>>, reliable: bool)
      requires Tree(nodes)
      ensures Valid() && this.nodes == nodes && this.cut == cut && this.reliable == reliable && history == [nodes]
    {
      this.nodes, this.cut, this.reliable := nodes, cut, reliable;
      history := [nodes];
    }

    /** Whether the next I/O call fails for a reason of its own. */
    method IoFails() returns (fails: bool)
      ensures reliable ==> !fails
    {
      fails := *;
      if reliable {
        fails := false;
      }
    }

    method Become(ns: Nodes)
      requires Valid() && Tree(ns)
      modifies this
      ensures Valid() && nodes == ns && history == old(history) + [ns]
    {
      nodes := ns;
      history := history + [ns];
    }

    /** `create_dir_all` */
    method MakeDirs(p: Path) returns (ok: bool)
      requires Valid()
      modifies this
      ensures Valid() && old(history) <= history
      ensures forall i | |old(history)| <= i < |history| :: MakesWay(old(nodes), history[i], p)
      ensures MakesWay(old(nodes), nodes, p)
      ensures ok ==> p in nodes && nodes[p] == Dir && WayOpen(old(nodes), p)
      ensures reliable && WayOpen(old(nodes), p) ==> ok
      ensures p in old(nodes) ==> nodes == old(nodes) && history == old(history) && ok == (nodes[p] == Dir)
      decreases |p|
    {
      if p in nodes {
        WayToNode(nodes, p);
        return nodes[p] == Dir;
      }
      WayToParent(nodes, p);
      ok := MakeDirs(Parent(p));
      ghost var mid := nodes;
      LastOfTheWay(old(nodes), mid, p);
      forall i | |old(history)| <= i < |history| ensures MakesWay(old(nodes), history[i], p) {
        WayGoesOn(old(nodes), history[i], p);
      }
      var fails := IoFails();
      if !ok || fails {
        return false;
      }
      KeepsTree(nodes, p, Dir);
      Become(nodes[p := Dir]);
    }

    /** `symlink` */
    method MakeLink(p: Path, link: Node) returns (ok: bool)
      requires Valid() && link.Link?
      modifies this
      ensures Valid() && old(history) <= history
      ensures if ok then p !in old(nodes) && nodes == old(nodes)[p := link] && history == old(history) + [nodes]
              else nodes == old(nodes) && history == old(history)
      ensures reliable && p !in old(nodes) && Parent(p) in old(nodes) && old(nodes)[Parent(p)] == Dir ==> ok
    {
      var fails := IoFails();
      if p in nodes || Parent(p) !in nodes || nodes[Parent(p)] != Dir || fails {
        return false;
      }
      KeepsTree(nodes, p, link);
      Become(nodes[p := link]);
      return true;
    }

    /** `fs::copy` of what is no directory; a link is read through. */
    method CopyFile(source: Path, target: Path) returns (ok: bool)
      requires Valid() && source in nodes && nodes[source] != Dir && target !in nodes
      modifies this
      ensures Valid() && old(history) <= history
      ensures forall i | |old(history)| <= i < |history| :: Touches(old(nodes), history[i], target)
      ensures Touches(old(nodes), nodes, target)
      ensures var data := ReadThrough(old(nodes), source);
              && (ok ==> data.Some? && nodes == old(nodes)[target := File(data.value)])
              && (reliable && data.Some? && Parent(target) in old(nodes) && old(nodes)[Parent(target)] == Dir ==> ok)
    {
      var before := nodes;
      var data := ReadThrough(before, source);
      var fails := IoFails();
      if data.None? || Parent(target) !in nodes || nodes[Parent(target)] != Dir || fails {
        return false;
      }
      var partial: string := *;
      Write(before, target, partial);
      fails := IoFails();
      if fails {
        return false;
      }
      Write(before, target, data.value);
      return true;
    }

    /** The content of a file that was not there `before`. */
    method Write(before: Nodes, p: Path, data: string)
      requires Valid() && Tree(before) && p !in before && Parent(p) in before && before[Parent(p)] == Dir
      modifies this
      ensures Valid() && nodes == before[p := File(data)] && history == old(history) + [nodes]
      ensures Touches(before, nodes, p)
    {
      KeepsTree(before, p, File(data));
      Become(before[p := File(data)]);
    }

    /** `read_dir`, and every entry until the listing ends or breaks off. */
    method ReadDir(dir: Path) returns (ok: bool, names: set<string>)
      ensures ok ==> names == Listing(nodes, cut, dir)
      ensures reliable ==> ok
    {
      var fails := IoFails();
      ok := !fails;
      names := Listing(nodes, cut, dir);
    }

    /** `remove_file` */
    method RemoveFile(p: Path) returns (ok: bool)
      requires Valid()
      modifies this
      ensures Valid() && old(history) <= history
      ensures if ok then p in old(nodes) && old(nodes)[p] != Dir && nodes == old(nodes) - {p} && history == old(history) + [nodes]
              else nodes == old(nodes) && history == old(history)
      ensures reliable && p in old(nodes) && old(nodes)[p] != Dir ==> ok
    {
      var fails := IoFails();
      if p !in nodes || nodes[p] == Dir || fails {
        return false;
      }
      assert Tree(nodes - {p});
      Become(nodes - {p});
      return true;
    }

    /** `remove_dir_all`, one node at a time from the leaves; of a link it removes the link. */
    method RemoveDirAll(p: Path) returns (ok: bool)
      requires Valid() && p != []
      modifies this
      ensures Valid() && old(history) <= history
      ensures forall i | |old(history)| <= i < |history| :: Removes(old(nodes), history[i], p)
      ensures Removes(old(nodes), nodes, p)
      ensures ok ==> Vacant(nodes, p) && p in old(nodes) && !old(nodes)[p].File?
      ensures reliable && p in old(nodes) && !old(nodes)[p].File? ==> ok
    {
      if p !in nodes || nodes[p].File? {
        return false;
      }
      var left := Under(nodes, p);
      while left != {}
        invariant Valid() && old(history) <= history
        invariant left == Under(nodes, p)
        invariant forall i | |old(history)| <= i < |history| :: Removes(old(nodes), history[i], p)
        invariant Removes(old(nodes), nodes, p)
        decreases |left|
      {
        var fails := IoFails();
        if fails {
          return false;
        }
        ghost var longest := LongestExists(left);
        var leaf: Path :| leaf in left && forall r | r in left :: |r| <= |leaf|;
        WithoutLeaf(nodes, p, leaf);
        RemovesOneMore(old(nodes), nodes, p, leaf);
        Become(nodes - {leaf});
        left := left - {leaf};
      }
      assert forall q | q in nodes && p <= q :: q in Under(nodes, p);
      return true;
    }
  }

  /** A node put into a directory where nothing was, or a file replaced by a file, leaves a tree. */
  lemma KeepsTree(ns: Nodes, p: Path, node: Node)
    requires Tree(ns) && p !in ns && Parent(p) in ns && ns[Parent(p)] == Dir
    ensures Tree(ns[p := node])
  {
    AbsentIsVacant(ns, p);
    forall q | q in ns && q != [] ensures Parent(q) != p {
      assert Parent(q) <= q;
    }
  }
}
