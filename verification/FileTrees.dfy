/**
  A file tree as a finite map from paths to nodes, the relative links that
  `pathdiff::diff_paths` computes, and what it means that a change stays within a place.
*/
module FileTrees {
  import opened Options

  /** The names from the root. */
  type Path = seq<string>

  datatype Step = Up | Down(name: string)

  datatype Node = File(data: string) | Dir | Link(absolute: bool, steps: seq<Step>)

  type Nodes = map<Path, Node>

  function Parent(p: Path): Path {
    if p == [] then [] else p[..|p| - 1]
  }

  /** Every node but the root is in a directory. */
  ghost predicate Tree(ns: Nodes) {
    && [] in ns && ns[[]] == Dir
    && forall q | q in ns && q != [] :: Parent(q) in ns && ns[Parent(q)] == Dir
  }

  lemma {:induction false} AncestorsAreDirs(ns: Nodes, p: Path, q: Path)
    requires Tree(ns) && q in ns && p < q
    ensures p in ns && ns[p] == Dir
    decreases |q|
  {
    if p != Parent(q) { AncestorsAreDirs(ns, p, Parent(q)); }
  }

  /** Neither path is below the other. */
  predicate Disjoint(p: Path, q: Path) {
    !(p <= q) && !(q <= p)
  }

  /** Nothing is at `p`, and so nothing below it. */
  ghost predicate Vacant(ns: Nodes, p: Path) {
    forall q | p <= q :: q !in ns
  }

  lemma AbsentIsVacant(ns: Nodes, p: Path)
    requires Tree(ns) && p !in ns
    ensures Vacant(ns, p)
  {
    forall q | p <= q ensures q !in ns {
      if q in ns && p != q { AncestorsAreDirs(ns, p, q); }
    }
  }

  // ---- changes ----

  /** Away from `p` nothing changed, but for directories made on the way to it. */
  ghost predicate Touches(before: Nodes, after: Nodes, p: Path) {
    && (forall q | q in before && !(p <= q) :: q in after && after[q] == before[q])
    && (forall q | q in after && !(p <= q) && q !in before :: q < p && after[q] == Dir)
  }

  /** Every node that was there is still there. */
  ghost predicate Adds(before: Nodes, after: Nodes) {
    forall q | q in before :: q in after && after[q] == before[q]
  }

  /** At and below two places the trees are the same. */
  ghost predicate SameTree(a: Nodes, p: Path, b: Nodes, q: Path) {
    forall t: Path :: (p + t in a <==> q + t in b) && (p + t in a ==> a[p + t] == b[q + t])
  }

  lemma TouchesTwice(a: Nodes, b: Nodes, c: Nodes, p: Path)
    requires Touches(a, b, p) && Touches(b, c, p)
    ensures Touches(a, c, p)
  {
  }

  /** What happens at one place leaves the tree at a disjoint place as it was. */
  lemma TouchesElsewhere(a: Nodes, b: Nodes, p: Path, q: Path)
    requires Touches(a, b, p) && Disjoint(p, q)
    ensures SameTree(a, q, b, q)
  {
    forall t: Path
      ensures (q + t in a <==> q + t in b) && (q + t in a ==> a[q + t] == b[q + t])
    {
      if p <= q + t { PrefixesCompare(p, q, t); }
      assert q + t < p ==> q <= p;
    }
  }

  lemma PrefixesCompare(p: Path, q: Path, t: Path)
    requires p <= q + t
    ensures p <= q || q <= p
  {
    if |p| <= |q| {
      assert p == (q + t)[..|p|] == q[..|p|];
    } else {
      assert q == (q + t)[..|q|] == p[..|q|];
    }
  }

  // ---- links ----

  function Downs(p: Path): seq<Step> {
    seq(|p|, i requires 0 <= i < |p| => Down(p[i]))
  }

  /** `diff_paths` of two absolute paths: out of the base as far as they differ, then down. */
  function Diff(source: Path, base: Path): seq<Step> {
    if source != [] && base != [] && source[0] == base[0] then Diff(source[1..], base[1..])
    else seq(|base|, _ => Up) + Downs(source)
  }

  /** Where the steps of a link lead from a directory. */
  function Follow(at: Path, steps: seq<Step>): Path
    decreases |steps|
  {
    if steps == [] then at
    else Follow(if steps[0].Up? then Parent(at) else at + [steps[0].name], steps[1..])
  }

  lemma {:induction false} FollowConcat(at: Path, a: seq<Step>, b: seq<Step>)
    ensures Follow(at, a + b) == Follow(Follow(at, a), b)
    decreases |a|
  {
    if a == [] {
      assert a + b == b;
    } else {
      assert (a + b)[1..] == a[1..] + b;
      FollowConcat(if a[0].Up? then Parent(at) else at + [a[0].name], a[1..], b);
    }
  }

  lemma {:induction false} FollowUps(prefix: Path, base: Path)
    ensures Follow(prefix + base, seq(|base|, _ => Up)) == prefix
    decreases |base|
  {
    var ups := seq(|base|, _ => Up);
    if base == [] {
      assert prefix + base == prefix;
    } else {
      assert Parent(prefix + base) == prefix + base[..|base| - 1];
      assert ups[1..] == seq(|base[..|base| - 1]|, _ => Up);
      FollowUps(prefix, base[..|base| - 1]);
    }
  }

  lemma {:induction false} FollowDowns(at: Path, p: Path)
    ensures Follow(at, Downs(p)) == at + p
    decreases |p|
  {
    if p == [] {
      assert at + p == at;
    } else {
      assert Downs(p)[1..] == Downs(p[1..]);
      FollowDowns(at + [p[0]], p[1..]);
      assert at + [p[0]] + p[1..] == at + p;
    }
  }

  /** The relative link from a directory to a source leads to the source. */
  lemma {:induction false} DiffLeadsToSource(prefix: Path, source: Path, base: Path)
    ensures Follow(prefix + base, Diff(source, base)) == prefix + source
    decreases |source|
  {
    if source != [] && base != [] && source[0] == base[0] {
      DiffLeadsToSource(prefix + [source[0]], source[1..], base[1..]);
      assert prefix + [source[0]] + source[1..] == prefix + source;
      assert prefix + [source[0]] + base[1..] == prefix + base;
    } else {
      FollowConcat(prefix + base, seq(|base|, _ => Up), Downs(source));
      FollowUps(prefix, base);
      FollowDowns(prefix, source);
    }
  }

  /** Where the link at `p` leads. */
  function LinkTarget(p: Path, link: Node): Path
    requires link.Link?
  {
    Follow(if link.absolute then [] else Parent(p), link.steps)
  }

  /** How many links are followed before the system gives up. */
  const MAX_LINKS: nat := 40

  /** `canonicalize` in a tree whose directories are not reached through links. */
  function Canonical(ns: Nodes, p: Path, links: nat): Option<Path>
    decreases links
  {
    if p !in ns then None
    else if !ns[p].Link? then Some(p)
    else if links == 0 then None
    else Canonical(ns, LinkTarget(p, ns[p]), links - 1)
  }

  /** `exists`: links are followed. */
  predicate Exists(ns: Nodes, p: Path) {
    Canonical(ns, p, MAX_LINKS).Some?
  }

  /** What reading a file yields; links are followed. */
  function ReadThrough(ns: Nodes, p: Path): Option<string> {
    var file := Canonical(ns, p, MAX_LINKS);
    if file.Some? && file.value in ns && ns[file.value].File? then Some(ns[file.value].data) else None
  }

  /** What can be read stays readable when nodes are only added. */
  lemma {:induction false} AddsKeepsCanonical(before: Nodes, after: Nodes, p: Path, links: nat)
    requires Adds(before, after) && Canonical(before, p, links).Some?
    ensures Canonical(after, p, links) == Canonical(before, p, links) && Canonical(before, p, links).value in before
    decreases links
  {
    if before[p].Link? { AddsKeepsCanonical(before, after, LinkTarget(p, before[p]), links - 1); }
  }

  /** Only directories are on the way to `p`, so that it can be made one. */
  ghost predicate WayOpen(ns: Nodes, p: Path) {
    forall q | q in ns && q <= p :: ns[q] == Dir
  }

  lemma WayToNode(ns: Nodes, p: Path)
    requires Tree(ns) && p in ns
    ensures WayOpen(ns, p) <==> ns[p] == Dir
  {
    forall q | q in ns && q <= p && q != p ensures ns[q] == Dir { AncestorsAreDirs(ns, q, p); }
  }

  /** Where nothing is, the way ends at the parent. */
  lemma WayToParent(ns: Nodes, p: Path)
    requires p !in ns
    ensures WayOpen(ns, p) <==> WayOpen(ns, Parent(p))
  {
    forall q | q in ns && q <= p ensures q <= Parent(p) {
      assert q != p;
    }
    assert Parent(p) <= p;
  }

  function RelativeLink(source: Path, target: Path): Node {
    Link(false, Diff(source, Parent(target)))
  }

  lemma RelativeLinkLeadsToSource(source: Path, target: Path)
    ensures LinkTarget(target, RelativeLink(source, target)) == source
  {
    DiffLeadsToSource([], source, Parent(target));
    assert [] + Parent(target) == Parent(target) && [] + source == source;
  }
}
