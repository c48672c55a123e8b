/**
  Distribution of store items to projects, for the categories that are files: ship,
  unship and absorb as they change the file system step by step, whatever fails.
*/
module Distributor {
  import opened Options
  import opened SetSizes
  import opened FileTrees
  import opened FileSystems
  import opened Copies

  datatype Category = Skill | Command | Hook | Subagent

  datatype Agent = Claude | Gemini

  datatype Method = Symlink | Copy

  datatype ShipResult = Shipped | Failed

  // ---- where items are ----

  predicate SafeName(name: string) {
    name != "" && '/' !in name && '\\' !in name && name != ".." && name != "."
  }

  function StoreDir(category: Category): string {
    match category
    case Skill => "skills"
    case Command => "commands"
    case Hook => "hooks"
    case Subagent => "subagents"
  }

  function AgentDir(agent: Agent, category: Category): Path {
    var root := if agent.Claude? then ".claude" else ".gemini";
    match category
    case Skill => [root, "skills"]
    case Command => [root, "commands"]
    case Hook => [root, "hooks"]
    case Subagent => [root]
  }

  predicate EndsInMd(name: string) {
    |name| >= 3 && name[|name| - 3..] == ".md"
  }

  function FileName(item: string, category: Category): string {
    if category.Command? && !EndsInMd(item) then item + ".md" else item
  }

  /** `resolve_ship_paths`: the item in the store. */
  function Source(store: Path, item: string, category: Category): Path {
    store + [StoreDir(category), FileName(item, category)]
  }

  /** `resolve_ship_paths`: the item in the project. */
  function Target(project: Path, item: string, category: Category, agent: Agent): Path {
    project + AgentDir(agent, category) + [FileName(item, category)]
  }

  lemma DisjointBelow(p: Path, q: Path, a: Path, b: Path)
    requires Disjoint(p, q)
    ensures !(p + a <= q + b)
  {
    if p + a <= q + b {
      assert p <= p + a;
      PrefixesCompare(p, q, b);
    }
  }

  /** An item's place in the store and its place in a project are disjoint. */
  lemma PlacesAreDisjoint(store: Path, project: Path, item: string, category: Category, agent: Agent)
    requires Disjoint(store, project)
    ensures var source, target := Source(store, item, category), Target(project, item, category, agent);
            && Disjoint(source, target) && !(Parent(target) <= source) && target != [] && source != []
  {
    var a, b := [StoreDir(category), FileName(item, category)], AgentDir(agent, category);
    var target := Target(project, item, category, agent);
    assert Parent(target) == project + b;
    assert target == project + (b + [FileName(item, category)]);
    DisjointBelow(store, project, a, b + [FileName(item, category)]);
    DisjointBelow(project, store, b + [FileName(item, category)], a);
    DisjointBelow(project, store, b, a);
  }

  // ---- different items have different places ----

  /** A command's file always ends in ".md", which is added once at most; every other item keeps its name. */
  lemma FileNames(item: string, category: Category)
    ensures category.Command? ==> EndsInMd(FileName(item, category))
    ensures FileName(item, category) == item || (category.Command? && FileName(item, category) == item + ".md")
    ensures FileName(item, category) == item <==> !category.Command? || EndsInMd(item)
    ensures FileName(FileName(item, category), category) == FileName(item, category)
    ensures SafeName(item) ==> SafeName(FileName(item, category))
  {
    assert (item + ".md")[|item|..] == ".md";
    assert |item + ".md"| == |item| + 3;
  }

  /** Two names share a file exactly when they are the same name, or, for commands, differ in the ".md". */
  lemma SameFileExactly(a: string, b: string, category: Category)
    ensures FileName(a, category) == FileName(b, category)
            <==> a == b || (category.Command? && ((!EndsInMd(a) && b == a + ".md") || (!EndsInMd(b) && a == b + ".md")))
  {
    FileNames(a, category);
    FileNames(b, category);
    if a + ".md" == b + ".md" {
      assert a == (a + ".md")[..|a|] && b == (b + ".md")[..|b|];
    }
    assert (a + ".md")[|a|..] == ".md" && (b + ".md")[|b|..] == ".md";
  }

  lemma SameLengthCompare(p: Path, a: Path, b: Path)
    requires p + a <= p + b
    ensures a <= b
  {
    assert a == (p + a)[|p|..] && b == (p + b)[|p|..];
    assert forall k | 0 <= k < |a| :: a[k] == (p + a)[|p| + k] == (p + b)[|p| + k] == b[k];
  }

  /** Two paths below a common one are disjoint exactly when what they add is. */
  lemma DisjointAfter(p: Path, a: Path, b: Path)
    ensures Disjoint(p + a, p + b) <==> Disjoint(a, b)
  {
    if p + a <= p + b { SameLengthCompare(p, a, b); }
    if p + b <= p + a { SameLengthCompare(p, b, a); }
    if a <= b { assert p + b == p + a + b[|a|..]; }
    if b <= a { assert p + a == p + b + a[|b|..]; }
  }

  lemma StoreDirsDiffer(c: Category, d: Category)
    ensures StoreDir(c) == StoreDir(d) <==> c == d
  {
    assert |"skills"| == 6 && |"commands"| == 8 && |"hooks"| == 5 && |"subagents"| == 9;
  }

  lemma PairBelowPair(a: string, b: string, c: string, d: string)
    ensures [a, b] <= [c, d] <==> a == c && b == d
  {
    var p, q := [a, b], [c, d];
    if p <= q { assert p[0] == q[0] && p[1] == q[1]; }
  }

  lemma PairBelowTriple(a: string, b: string, c: string, d: string, e: string)
    ensures [a, b] <= [c, d, e] <==> a == c && b == d
    ensures !([c, d, e] <= [a, b])
  {
    var p, q := [a, b], [c, d, e];
    if p <= q { assert p[0] == q[0] && p[1] == q[1]; }
  }

  lemma TripleBelowTriple(a: string, b: string, c: string, d: string, e: string, f: string)
    ensures [a, b, c] <= [d, e, f] <==> a == d && b == e && c == f
  {
    var p, q := [a, b, c], [d, e, f];
    if p <= q { assert p[0] == q[0] && p[1] == q[1] && p[2] == q[2]; }
  }

  /** Two items have disjoint places in the store unless they are of one category and share the file. */
  lemma {:induction false} StorePlacesDisjointExactly(store: Path, a: string, c: Category, b: string, d: Category)
    ensures Disjoint(Source(store, a, c), Source(store, b, d)) <==> !(c == d && FileName(a, c) == FileName(b, d))
  {
    DisjointAfter(store, [StoreDir(c), FileName(a, c)], [StoreDir(d), FileName(b, d)]);
    StoreDirsDiffer(c, d);
    PairBelowPair(StoreDir(c), FileName(a, c), StoreDir(d), FileName(b, d));
    PairBelowPair(StoreDir(d), FileName(b, d), StoreDir(c), FileName(a, c));
  }

  /** The directory of a project's agent that holds a category; subagents are in the agent's own. */
  predicate NamesDirOf(name: string, category: Category) {
    !category.Subagent? && name == StoreDir(category)
  }

  lemma BelowAgentDir(agent: Agent, a: string, c: Category, other: Agent, b: string, d: Category)
    ensures AgentDir(agent, c) + [a] <= AgentDir(other, d) + [b]
            <==> agent == other && ((c == d && a == b) || (c.Subagent? && NamesDirOf(a, d)))
  {
    var p, q := AgentDir(agent, c) + [a], AgentDir(other, d) + [b];
    assert ".claude"[1] != ".gemini"[1];
    assert p[0] == q[0] <==> agent == other;
    assert p == if c.Subagent? then [p[0], a] else [p[0], StoreDir(c), a];
    assert q == if d.Subagent? then [q[0], b] else [q[0], StoreDir(d), b];
    StoreDirsDiffer(c, d);
    PairBelowPair(p[0], a, q[0], b);
    PairBelowTriple(p[0], a, q[0], StoreDir(d), b);
    PairBelowTriple(q[0], b, p[0], StoreDir(c), a);
    TripleBelowTriple(p[0], StoreDir(c), a, q[0], StoreDir(d), b);
  }

  /** Two items have disjoint places in a project unless they are of one agent and category and share the file, or
      one is a subagent with the name of the other's directory. */
  lemma {:induction false} ProjectPlacesDisjointExactly(
      project: Path, agent: Agent, a: string, c: Category, other: Agent, b: string, d: Category)
    ensures Disjoint(Target(project, a, c, agent), Target(project, b, d, other))
            <==> agent != other
                 || (!(c == d && FileName(a, c) == FileName(b, d))
                     && !(c.Subagent? && NamesDirOf(a, d)) && !(d.Subagent? && NamesDirOf(b, c)))
  {
    var p, q := AgentDir(agent, c) + [FileName(a, c)], AgentDir(other, d) + [FileName(b, d)];
    assert Target(project, a, c, agent) == project + p && Target(project, b, d, other) == project + q;
    DisjointAfter(project, p, q);
    BelowAgentDir(agent, FileName(a, c), c, other, FileName(b, d), d);
    BelowAgentDir(other, FileName(b, d), d, agent, FileName(a, c), c);
  }

  // ---- links that ship leaves alone ----

  /** `check_existing_target`: whether what is at `target` is a link that leads to `expected`. */
  predicate PointsTo(ns: Nodes, target: Path, expected: Path)
    requires target in ns
  {
    && ns[target].Link?
    && var resolved := Canonical(ns, LinkTarget(target, ns[target]), MAX_LINKS);
       var wanted := Canonical(ns, expected, MAX_LINKS);
       if resolved.Some? && wanted.Some? then resolved == wanted
       else (if ns[target].absolute then [] else Downs(Parent(target))) + ns[target].steps == Downs(expected)
  }

  lemma {:induction false} DiffGoesUp(source: Path, base: Path)
    requires !(base <= source)
    ensures Up in Diff(source, base)
    decreases |source|
  {
    if source != [] && base != [] && source[0] == base[0] {
      assert base == [base[0]] + base[1..] && source == [source[0]] + source[1..];
      DiffGoesUp(source[1..], base[1..]);
    } else {
      assert base != [];
      assert Diff(source, base)[0] == Up;
    }
  }

  /** Of a link that ship made, the check holds exactly while the source is there. */
  lemma OwnLinkPointsTo(ns: Nodes, source: Path, target: Path)
    requires target in ns && ns[target] == RelativeLink(source, target)
    requires !(Parent(target) <= source) && (source in ns ==> !ns[source].Link?)
    ensures PointsTo(ns, target, source) <==> source in ns
  {
    RelativeLinkLeadsToSource(source, target);
    if source !in ns {
      DiffGoesUp(source, Parent(target));
      assert Up in Downs(Parent(target)) + Diff(source, Parent(target));
      assert Up !in Downs(source);
    }
  }

  // ---- copy_recursive ----

  /** From some moment on, every state differs from `before` at `p` only. */
  ghost predicate StepsTouch(history: seq<Nodes>, from: nat, before: Nodes, p: Path) {
    forall i | from <= i < |history| :: Touches(before, history[i], p)
  }

  lemma StepsGoOn(soFar: seq<Nodes>, history: seq<Nodes>, from: nat, before: Nodes, p: Path)
    requires StepsTouch(soFar, from, before, p) && soFar <= history && StepsTouch(history, |soFar|, before, p)
    ensures StepsTouch(history, from, before, p)
  {
    forall i | from <= i < |history| ensures Touches(before, history[i], p) {
      if i < |soFar| { assert history[i] == soFar[i]; }
    }
  }

  lemma WayTouches(before: Nodes, after: Nodes, way: Path, p: Path)
    requires MakesWay(before, after, way) && way <= p
    ensures Touches(before, after, p)
  {
  }

  /** Making way to a vacant place leaves it vacant. */
  lemma WayIsVacant(before: Nodes, after: Nodes, target: Path)
    requires Tree(before) && MakesWay(before, after, Parent(target)) && target != []
    ensures target !in before ==> Vacant(before, target) && Vacant(after, target)
  {
    if target !in before {
      AbsentIsVacant(before, target);
      forall q | target <= q ensures q !in after {
        assert q <= Parent(target) ==> |q| < |target|;
      }
    }
  }

  /** What touches a vacant place only adds. */
  lemma TouchesVacantAdds(before: Nodes, after: Nodes, p: Path)
    requires Touches(before, after, p) && Vacant(before, p)
    ensures Adds(before, after)
  {
  }

  /** What a copy that works needs: something to copy, links that lead to files, and a way that only
      directories are on. */
  ghost predicate CanCopy(ns: Nodes, cut: map<Path, set<string>>, source: Path, target: Path) {
    source in ns && LinksReadable(cut, ns, source) && WayOpen(ns, target)
  }

  lemma LeafReadable(before: Nodes, mid: Nodes, cut: map<Path, set<string>>, p: Path)
    requires LinksReadable(cut, before, p) && Adds(before, mid) && p in before && before[p] != Dir
    ensures ReadThrough(mid, p).Some?
  {
    assert p + [] == p && Shown(cut, p, []);
    assert before[p].Link? ==> ReadThrough(before, p + []).Some?;
    ReadEarlier(before, mid, p);
  }

  lemma ReadMirrors(before: Nodes, mid: Nodes, p: Path)
    requires Adds(before, mid) && p in before && before[p] != Dir && ReadThrough(mid, p).Some?
    ensures Mirrors(before, p, File(ReadThrough(mid, p).value))
  {
    if ReadThrough(before, p).Some? { ReadEarlier(before, mid, p); }
  }

  lemma EntryWayOpen(ns: Nodes, p: Path, e: string)
    requires Tree(ns) && p in ns && ns[p] == Dir && Vacant(ns, p + [e])
    ensures WayOpen(ns, p + [e])
  {
    assert p + [e] <= p + [e] && Parent(p + [e]) == p;
    WayToNode(ns, p);
    WayToParent(ns, p + [e]);
  }

  lemma EntryIsThere(before: Nodes, mid: Nodes, cut: map<Path, set<string>>, p: Path, e: string)
    requires e in Listing(before, cut, p) && Adds(before, mid)
    ensures p + [e] in mid
  {
    var q :| q in before && |q| == |p| + 1 && p < q && q[|p|] == e;
    assert q == p + [e];
  }

  /** Makes the directory the target goes into. */
  method MakeWayTo(fs: FileSystem, target: Path) returns (ok: bool)
    requires fs.Valid() && target != []
    modifies fs
    ensures fs.Valid() && old(fs.history) <= fs.history
    ensures Touches(old(fs.nodes), fs.nodes, target) && MakesWay(old(fs.nodes), fs.nodes, Parent(target))
    ensures StepsTouch(fs.history, |old(fs.history)|, old(fs.nodes), target)
    ensures target in old(fs.nodes) ==> ok && fs.nodes == old(fs.nodes) && fs.history == old(fs.history)
    ensures target !in old(fs.nodes) ==> Vacant(old(fs.nodes), target) && Vacant(fs.nodes, target)
    ensures ok ==> WayOpen(old(fs.nodes), Parent(target)) && Parent(target) in fs.nodes && fs.nodes[Parent(target)] == Dir
    ensures fs.reliable && WayOpen(old(fs.nodes), Parent(target)) ==> ok
  {
    ghost var before := fs.nodes;
    ok := fs.MakeDirs(Parent(target));
    WayTouches(before, fs.nodes, Parent(target), target);
    WayIsVacant(before, fs.nodes, target);
    forall i | |old(fs.history)| <= i < |fs.history| ensures Touches(before, fs.history[i], target) {
      WayTouches(before, fs.history[i], Parent(target), target);
    }
  }

  method CopyRecursive(fs: FileSystem, source: Path, target: Path) returns (ok: bool)
    requires fs.Valid() && Vacant(fs.nodes, target) && Disjoint(source, target) && target != []
    modifies fs
    ensures fs.Valid() && old(fs.history) <= fs.history
    ensures StepsTouch(fs.history, |old(fs.history)|, old(fs.nodes), target)
    ensures Touches(old(fs.nodes), fs.nodes, target)
    ensures ok ==> source in old(fs.nodes) && WayOpen(old(fs.nodes), target)
                   && Copied(old(fs.nodes), fs.cut, source, fs.nodes, target)
    ensures fs.reliable && CanCopy(old(fs.nodes), fs.cut, source, target) ==> ok
    decreases |Under(fs.nodes, source)|, 3
  {
    if source !in fs.nodes {
      return false;
    }
    if fs.nodes[source] == Dir {
      ok := CopyDirectory(fs, source, target);
    } else {
      ok := CopyLeaf(fs, source, target);
    }
  }

  method CopyLeaf(fs: FileSystem, source: Path, target: Path) returns (ok: bool)
    requires fs.Valid() && Vacant(fs.nodes, target) && Disjoint(source, target) && target != []
    requires source in fs.nodes && fs.nodes[source] != Dir
    modifies fs
    ensures fs.Valid() && old(fs.history) <= fs.history
    ensures StepsTouch(fs.history, |old(fs.history)|, old(fs.nodes), target)
    ensures Touches(old(fs.nodes), fs.nodes, target)
    ensures ok ==> WayOpen(old(fs.nodes), target) && Copied(old(fs.nodes), fs.cut, source, fs.nodes, target)
    ensures fs.reliable && CanCopy(old(fs.nodes), fs.cut, source, target) ==> ok
  {
    ghost var before := fs.nodes;
    assert target <= target;
    WayToParent(before, target);
    ok := MakeWayTo(fs, target);
    ghost var mid, soFar := fs.nodes, fs.history;
    if ok {
      TouchesElsewhere(before, mid, target, source);
      SameNode(before, mid, source);
      TouchesVacantAdds(before, mid, target);
      ok := CopyLeafHere(fs, before, source, target);
      StepsGoOn(soFar, fs.history, |old(fs.history)|, before, target);
    }
  }

  method CopyLeafHere(fs: FileSystem, ghost before: Nodes, source: Path, target: Path) returns (ok: bool)
    requires fs.Valid() && Vacant(fs.nodes, target) && Touches(before, fs.nodes, target) && Tree(before)
    requires source in fs.nodes && source in before && before[source] == fs.nodes[source] && before[source] != Dir
    requires Adds(before, fs.nodes) && Parent(target) in fs.nodes && fs.nodes[Parent(target)] == Dir
    modifies fs
    ensures fs.Valid() && old(fs.history) <= fs.history
    ensures StepsTouch(fs.history, |old(fs.history)|, before, target)
    ensures Touches(before, fs.nodes, target)
    ensures ok ==> Copied(before, fs.cut, source, fs.nodes, target)
    ensures fs.reliable && LinksReadable(fs.cut, before, source) ==> ok
  {
    ghost var mid := fs.nodes;
    assert target <= target;
    if LinksReadable(fs.cut, before, source) { LeafReadable(before, mid, fs.cut, source); }
    ok := fs.CopyFile(source, target);
    TouchesTwice(before, mid, fs.nodes, target);
    forall i | |old(fs.history)| <= i < |fs.history| ensures Touches(before, fs.history[i], target) {
      TouchesTwice(before, mid, fs.history[i], target);
    }
    if ok {
      ReadMirrors(before, mid, source);
      FileCopied(before, fs.cut, source, mid, fs.nodes, target);
    }
  }

  method CopyDirectory(fs: FileSystem, source: Path, target: Path) returns (ok: bool)
    requires fs.Valid() && Vacant(fs.nodes, target) && Disjoint(source, target) && target != []
    requires source in fs.nodes && fs.nodes[source] == Dir
    modifies fs
    ensures fs.Valid() && old(fs.history) <= fs.history
    ensures StepsTouch(fs.history, |old(fs.history)|, old(fs.nodes), target)
    ensures Touches(old(fs.nodes), fs.nodes, target)
    ensures ok ==> WayOpen(old(fs.nodes), target) && Copied(old(fs.nodes), fs.cut, source, fs.nodes, target)
    ensures fs.reliable && CanCopy(old(fs.nodes), fs.cut, source, target) ==> ok
    decreases |Under(fs.nodes, source)|, 2
  {
    ghost var before := fs.nodes;
    ok := fs.MakeDirs(target);
    ghost var made := fs.history;
    if !ok {
      return;
    }
    ReadyToList(before, fs.nodes, fs.cut, source, target);
    var listed, names := fs.ReadDir(source);
    if !listed {
      return false;
    }
    ok := CopyEntries(fs, before, source, target, names);
    StepsGoOn(made, fs.history, |old(fs.history)|, before, target);
    if ok {
      AllEntriesCopied(before, fs.cut, source, fs.nodes, target);
    }
  }

  lemma ReadyToList(before: Nodes, made: Nodes, cut: map<Path, set<string>>, source: Path, target: Path)
    requires Touches(before, made, target) && Disjoint(source, target) && target in made
    requires forall r | r in made && target <= r :: r == target
    ensures Listing(made, cut, source) == Listing(before, cut, source)
    ensures PartlyCopied(before, cut, source, made, target, {})
  {
    TouchesElsewhere(before, made, target, source);
    SameListing(before, made, cut, source);
    NothingCopiedYet(before, cut, source, made, target);
  }

  /** The entries are copied one after the other, in any order, up to the first that fails. */
  method CopyEntries(fs: FileSystem, ghost before: Nodes, source: Path, target: Path, names: set<string>) returns (ok: bool)
    requires fs.Valid() && Disjoint(source, target) && target != [] && Tree(before) && source in before && target !in before
    requires Touches(before, fs.nodes, target) && target in fs.nodes && fs.nodes[target] == Dir
    requires names == Listing(before, fs.cut, source) && PartlyCopied(before, fs.cut, source, fs.nodes, target, {})
    modifies fs
    ensures fs.Valid() && old(fs.history) <= fs.history
    ensures StepsTouch(fs.history, |old(fs.history)|, before, target)
    ensures Touches(before, fs.nodes, target) && target in fs.nodes && fs.nodes[target] == Dir
    ensures ok ==> PartlyCopied(before, fs.cut, source, fs.nodes, target, names)
    ensures fs.reliable && LinksReadable(fs.cut, before, source) ==> ok
    decreases |Under(before, source)|, 1
  {
    var rest := names;
    assert names - rest == {};
    ghost var start := fs.history;
    while rest != {}
      invariant fs.Valid() && start <= fs.history
      invariant StepsTouch(fs.history, |start|, before, target)
      invariant Touches(before, fs.nodes, target) && target in fs.nodes && fs.nodes[target] == Dir
      invariant rest <= names && PartlyCopied(before, fs.cut, source, fs.nodes, target, names - rest)
      decreases rest
    {
      var name :| name in rest;
      ghost var soFar := fs.history;
      ok := CopyEntry(fs, before, source, target, names - rest, name);
      StepsGoOn(soFar, fs.history, |start|, before, target);
      if !ok {
        return;
      }
      assert names - rest + {name} == names - (rest - {name});
      rest := rest - {name};
    }
    assert names - rest == names;
    return true;
  }

  method CopyEntry(fs: FileSystem, ghost before: Nodes, source: Path, target: Path, ghost done: set<string>, name: string)
    returns (ok: bool)
    requires fs.Valid() && Disjoint(source, target) && target != [] && Tree(before) && source in before && target !in before
    requires Touches(before, fs.nodes, target) && target in fs.nodes && fs.nodes[target] == Dir
    requires PartlyCopied(before, fs.cut, source, fs.nodes, target, done)
    requires name in Listing(before, fs.cut, source) && name !in done
    modifies fs
    ensures fs.Valid() && old(fs.history) <= fs.history
    ensures StepsTouch(fs.history, |old(fs.history)|, before, target)
    ensures Touches(before, fs.nodes, target) && target in fs.nodes && fs.nodes[target] == Dir
    ensures ok ==> PartlyCopied(before, fs.cut, source, fs.nodes, target, done + {name})
    ensures fs.reliable && LinksReadable(fs.cut, before, source) ==> ok
    decreases |Under(before, source)|, 0
  {
    ghost var mid := fs.nodes;
    ReadyForEntry(before, mid, fs.cut, source, target, done, name);
    AbsentIsVacant(before, target);
    TouchesVacantAdds(before, mid, target);
    EntryWayOpen(mid, target, name);
    EntryIsThere(before, mid, fs.cut, source, name);
    if LinksReadable(fs.cut, before, source) { LinksReadableBelow(fs.cut, before, mid, source, name); }
    ok := CopyRecursive(fs, source + [name], target + [name]);
    TouchesBelow(before, mid, fs.nodes, target, name);
    forall i | |old(fs.history)| <= i < |fs.history| ensures Touches(before, fs.history[i], target) {
      TouchesBelow(before, mid, fs.history[i], target, name);
    }
    if ok {
      CopiesOneMore(before, fs.cut, source, mid, fs.nodes, target, done, name);
    }
  }

  lemma ReadyForEntry(
    before: Nodes, mid: Nodes, cut: map<Path, set<string>>, p: Path, q: Path, done: set<string>, e: string)
    requires Touches(before, mid, q) && Disjoint(p, q) && p in before
    requires PartlyCopied(before, cut, p, mid, q, done) && e !in done && e in Listing(before, cut, p)
    ensures Vacant(mid, q + [e]) && Disjoint(p + [e], q + [e])
    ensures SameTree(before, p, mid, p) && |Under(mid, p + [e])| < |Under(before, p)|
    ensures Listed(cut, p, e)
  {
    TouchesElsewhere(before, mid, q, p);
    EntryIsSmaller(before, mid, cut, p, e);
    EntryIsVacant(before, cut, p, mid, q, done, e);
    DisjointBelow(p, q, [e], [e]);
    DisjointBelow(q, p, [e], [e]);
  }

  lemma TouchesBelow(before: Nodes, mid: Nodes, after: Nodes, p: Path, e: string)
    requires Touches(before, mid, p) && Touches(mid, after, p + [e]) && p in mid
    ensures Touches(before, after, p) && p in after && after[p] == mid[p]
  {
    assert p <= p + [e] && !(p + [e] <= p);
    forall q | q in before && !(p <= q) ensures q in after && after[q] == before[q] {
      assert q in mid && !(p + [e] <= q);
    }
    forall q | q in after && !(p <= q) && q !in before ensures q < p && after[q] == Dir {
      assert q !in mid ==> q < p + [e] && q <= p;
    }
  }

  lemma SameNode(a: Nodes, b: Nodes, p: Path)
    requires SameTree(a, p, b, p)
    ensures (p in a <==> p in b) && (p in a ==> a[p] == b[p])
  {
    assert p + [] == p;
  }

  lemma SameListing(a: Nodes, b: Nodes, cut: map<Path, set<string>>, p: Path)
    requires SameTree(a, p, b, p)
    ensures Listing(a, cut, p) == Listing(b, cut, p)
  {
    forall q | p < q ensures q in a <==> q in b { assert q == p + q[|p|..]; }
  }

  lemma EntryIsSmaller(before: Nodes, mid: Nodes, cut: map<Path, set<string>>, p: Path, e: string)
    requires SameTree(before, p, mid, p) && e in Listing(before, cut, p) && p in before
    ensures |Under(mid, p + [e])| < |Under(before, p)|
  {
    forall q | p <= q ensures q in before <==> q in mid { assert q == p + q[|p|..]; }
    assert p in Under(before, p) && p !in Under(mid, p + [e]);
    assert Under(mid, p + [e]) <= Under(before, p) - {p};
    SubsetSize(Under(mid, p + [e]), Under(before, p) - {p});
  }

  lemma EntryIsVacant(before: Nodes, cut: map<Path, set<string>>, p: Path, mid: Nodes, q: Path, done: set<string>, e: string)
    requires PartlyCopied(before, cut, p, mid, q, done) && e !in done
    ensures Vacant(mid, q + [e])
  {
    forall r | q + [e] <= r ensures r !in mid {
      assert r == q + r[|q|..] && r[|q|..][0] == e;
    }
  }

  // ---- ship ----

  /** Ship only ever adds: every node that was there stays, through every step and every failure. A
      target that is there already is left as it is, and counts as shipped exactly if it points to the
      source. */
  method Ship(fs: FileSystem, store: Path, item: string, category: Category, project: Path, agent: Agent, how: Method)
    returns (r: ShipResult)
    requires fs.Valid() && Disjoint(store, project)
    modifies fs
    ensures fs.Valid() && old(fs.history) <= fs.history
    ensures var target := Target(project, item, category, agent);
            && Touches(old(fs.nodes), fs.nodes, target) && Adds(old(fs.nodes), fs.nodes)
            && forall i | |old(fs.history)| <= i < |fs.history| ::
                 Touches(old(fs.nodes), fs.history[i], target) && Adds(old(fs.nodes), fs.history[i])
    ensures !SafeName(item) ==> r.Failed? && fs.nodes == old(fs.nodes)
    ensures var source, target := Source(store, item, category), Target(project, item, category, agent);
            && (SafeName(item) && target in old(fs.nodes) ==>
                  fs.nodes == old(fs.nodes) && (r.Shipped? <==> PointsTo(fs.nodes, target, source)))
            && (r.Shipped? && target !in old(fs.nodes) ==>
                  && WayOpen(old(fs.nodes), Parent(target)) && (how.Copy? ==> source in old(fs.nodes))
                  && if how.Symlink? then Linked(old(fs.nodes), fs.nodes, source, target)
                     else Copied(old(fs.nodes), fs.cut, source, fs.nodes, target))
            && (fs.reliable && SafeName(item) && target !in old(fs.nodes) ==>
                  CanPlace(old(fs.nodes), fs.cut, source, target, how) ==> r.Shipped?)
  {
    if !SafeName(item) {
      return Failed;
    }
    PlacesAreDisjoint(store, project, item, category, agent);
    var target := Target(project, item, category, agent);
    ghost var before := fs.nodes;
    r := ShipTo(fs, Source(store, item, category), target, how);
    if target !in before {
      AbsentIsVacant(before, target);
      TouchesVacantAdds(before, fs.nodes, target);
      forall i | |old(fs.history)| <= i < |fs.history| ensures Adds(before, fs.history[i]) {
        TouchesVacantAdds(before, fs.history[i], target);
      }
    }
  }

  /** What shipping to a free place needs: a way, and for a copy something that can be copied. */
  ghost predicate CanPlace(ns: Nodes, cut: map<Path, set<string>>, source: Path, target: Path, how: Method) {
    WayOpen(ns, Parent(target)) && (how.Copy? ==> source in ns && LinksReadable(cut, ns, source))
  }

  /** A link to the source is new at the target, and otherwise only directories on the way to it. */
  ghost predicate Linked(before: Nodes, after: Nodes, source: Path, target: Path) {
    && target in after && after[target] == RelativeLink(source, target)
    && MakesWay(before, after - {target}, Parent(target))
  }

  method ShipTo(fs: FileSystem, source: Path, target: Path, how: Method) returns (r: ShipResult)
    requires fs.Valid() && Disjoint(source, target) && target != []
    modifies fs
    ensures fs.Valid() && old(fs.history) <= fs.history
    ensures Touches(old(fs.nodes), fs.nodes, target)
    ensures StepsTouch(fs.history, |old(fs.history)|, old(fs.nodes), target)
    ensures target in old(fs.nodes) ==>
              fs.nodes == old(fs.nodes) && fs.history == old(fs.history)
              && (r.Shipped? <==> PointsTo(fs.nodes, target, source))
    ensures r.Shipped? && target !in old(fs.nodes) ==>
              && WayOpen(old(fs.nodes), Parent(target)) && (how.Copy? ==> source in old(fs.nodes))
              && if how.Symlink? then Linked(old(fs.nodes), fs.nodes, source, target)
                 else Copied(old(fs.nodes), fs.cut, source, fs.nodes, target)
    ensures fs.reliable && target !in old(fs.nodes) && CanPlace(old(fs.nodes), fs.cut, source, target, how) ==> r.Shipped?
  {
    ghost var before := fs.nodes;
    var ok := MakeWayTo(fs, target);
    ghost var soFar := fs.history;
    if !ok {
      return Failed;
    }
    if target in fs.nodes {
      return if PointsTo(fs.nodes, target, source) then Shipped else Failed;
    }
    ok := PlaceNew(fs, before, source, target, how);
    StepsGoOn(soFar, fs.history, |old(fs.history)|, before, target);
    return if ok then Shipped else Failed;
  }

  method PlaceNew(fs: FileSystem, ghost before: Nodes, source: Path, target: Path, how: Method) returns (ok: bool)
    requires fs.Valid() && Disjoint(source, target) && target != []
    requires Touches(before, fs.nodes, target) && MakesWay(before, fs.nodes, Parent(target)) && Vacant(fs.nodes, target)
    requires Vacant(before, target) && Parent(target) in fs.nodes && fs.nodes[Parent(target)] == Dir
    modifies fs
    ensures fs.Valid() && old(fs.history) <= fs.history
    ensures Touches(before, fs.nodes, target) && StepsTouch(fs.history, |old(fs.history)|, before, target)
    ensures ok ==> && (how.Copy? ==> source in before)
                   && if how.Symlink? then Linked(before, fs.nodes, source, target)
                      else Copied(before, fs.cut, source, fs.nodes, target)
    ensures fs.reliable && (how.Copy? ==> source in before && LinksReadable(fs.cut, before, source)) ==> ok
  {
    ghost var mid := fs.nodes;
    if how.Symlink? {
      ok := fs.MakeLink(target, RelativeLink(source, target));
      if ok { assert fs.nodes - {target} == mid; }
    } else {
      ok := CopyNew(fs, before, source, target);
    }
  }

  method CopyNew(fs: FileSystem, ghost before: Nodes, source: Path, target: Path) returns (ok: bool)
    requires fs.Valid() && Disjoint(source, target) && target != []
    requires Touches(before, fs.nodes, target) && Vacant(fs.nodes, target)
    requires Vacant(before, target) && Parent(target) in fs.nodes && fs.nodes[Parent(target)] == Dir
    modifies fs
    ensures fs.Valid() && old(fs.history) <= fs.history
    ensures Touches(before, fs.nodes, target) && StepsTouch(fs.history, |old(fs.history)|, before, target)
    ensures ok ==> source in before && Copied(before, fs.cut, source, fs.nodes, target)
    ensures fs.reliable && source in before && LinksReadable(fs.cut, before, source) ==> ok
  {
    ghost var mid := fs.nodes;
    ReadyToCopy(before, mid, fs.cut, source, target);
    ok := CopyRecursive(fs, source, target);
    TouchesTwice(before, mid, fs.nodes, target);
    forall i | |old(fs.history)| <= i < |fs.history| ensures Touches(before, fs.history[i], target) {
      TouchesTwice(before, mid, fs.history[i], target);
    }
    if ok {
      SameOriginal(before, mid, fs.cut, source, fs.nodes, target);
    }
  }

  lemma ReadyToCopy(before: Nodes, mid: Nodes, cut: map<Path, set<string>>, source: Path, target: Path)
    requires Tree(mid) && Disjoint(source, target) && target != []
    requires Touches(before, mid, target) && Vacant(mid, target) && Vacant(before, target)
    requires Parent(target) in mid && mid[Parent(target)] == Dir
    ensures SameTree(before, source, mid, source) && Adds(before, mid)
    ensures source in before && LinksReadable(cut, before, source) ==> CanCopy(mid, cut, source, target)
    ensures source in mid ==> source in before
  {
    TouchesElsewhere(before, mid, target, source);
    SameNode(before, mid, source);
    TouchesVacantAdds(before, mid, target);
    assert target <= target;
    WayToParent(mid, target);
    WayToNode(mid, Parent(target));
    if LinksReadable(cut, before, source) { LinksReadableLater(cut, before, mid, source); }
  }

  lemma LinksReadableLater(cut: map<Path, set<string>>, before: Nodes, mid: Nodes, p: Path)
    requires LinksReadable(cut, before, p) && Adds(before, mid) && SameTree(before, p, mid, p)
    ensures LinksReadable(cut, mid, p)
  {
    forall t: Path | p + t in mid && Shown(cut, p, t) && mid[p + t].Link? ensures ReadThrough(mid, p + t).Some? {
      assert p + t in before;
      ReadEarlier(before, mid, p + t);
    }
  }

  lemma SameOriginal(before: Nodes, mid: Nodes, cut: map<Path, set<string>>, p: Path, after: Nodes, q: Path)
    requires SameTree(before, p, mid, p) && Adds(before, mid) && Copied(mid, cut, p, after, q)
    ensures Copied(before, cut, p, after, q)
  {
    forall t: Path
      ensures q + t in after <==> p + t in before && Shown(cut, p, t)
      ensures q + t in after ==> Mirrors(before, p + t, after[q + t])
    {
      assert p + t in before <==> p + t in mid;
      if q + t in after { MirrorsEarlier(before, mid, p + t, after[q + t]); }
    }
  }

  /** A fresh link ships again exactly while its source is there, and shipping again changes nothing. */
  method ShipTwice(fs: FileSystem, store: Path, item: string, category: Category, project: Path, agent: Agent)
    returns (first: ShipResult, second: ShipResult)
    requires fs.Valid() && Disjoint(store, project)
    requires Target(project, item, category, agent) !in fs.nodes
    requires var source := Source(store, item, category); source in fs.nodes ==> !fs.nodes[source].Link?
    modifies fs
    ensures fs.Valid()
    ensures first.Shipped? ==>
              && Linked(old(fs.nodes), fs.nodes, Source(store, item, category), Target(project, item, category, agent))
              && (second.Shipped? <==> Source(store, item, category) in old(fs.nodes))
    ensures fs.reliable && SafeName(item) ==>
              (first.Shipped? <==> WayOpen(old(fs.nodes), Parent(Target(project, item, category, agent))))
  {
    ghost var before := fs.nodes;
    first := Ship(fs, store, item, category, project, agent, Symlink);
    second := Failed;
    if first.Shipped? {
      var source, target := Source(store, item, category), Target(project, item, category, agent);
      PlacesAreDisjoint(store, project, item, category, agent);
      TouchesElsewhere(before, fs.nodes, target, source);
      SameNode(before, fs.nodes, source);
      OwnLinkPointsTo(fs.nodes, source, target);
      second := Ship(fs, store, item, category, project, agent, Symlink);
    }
  }

  // ---- unship ----

  /** Unship removes nothing but the target; of a link only the link, of a copy everything, unless the
      copy differs from the source and removal is not forced. */
  method Unship(fs: FileSystem, store: Path, item: string, category: Category, project: Path, agent: Agent, force: bool)
    returns (r: ShipResult)
    requires fs.Valid() && Disjoint(store, project)
    modifies fs
    ensures fs.Valid() && old(fs.history) <= fs.history
    ensures var target := Target(project, item, category, agent);
            && Removes(old(fs.nodes), fs.nodes, target)
            && (forall i | |old(fs.history)| <= i < |fs.history| :: Removes(old(fs.nodes), fs.history[i], target))
            && (r.Shipped? ==> SafeName(item) && Vacant(fs.nodes, target))
            && (r.Shipped? && target in old(fs.nodes) && old(fs.nodes)[target].Link? ==> fs.nodes == old(fs.nodes) - {target})
            && (!SafeName(item) || target !in old(fs.nodes) ==> fs.nodes == old(fs.nodes) && (r.Shipped? <==> SafeName(item)))
            && (fs.reliable && r.Failed? ==> fs.nodes == old(fs.nodes))
            && (fs.reliable && SafeName(item) && target in old(fs.nodes) ==>
                  (r.Shipped? <==>
                   || old(fs.nodes)[target].Link? || force
                   || !Differs(old(fs.nodes), fs.cut, target, Source(store, item, category))))
  {
    if !SafeName(item) {
      return Failed;
    }
    PlacesAreDisjoint(store, project, item, category, agent);
    var target := Target(project, item, category, agent);
    if target !in fs.nodes {
      AbsentIsVacant(fs.nodes, target);
      return Shipped;
    }
    if !fs.nodes[target].Link? {
      var differs := ContentDiffers(fs, target, Source(store, item, category));
      if differs && !force {
        return Failed;
      }
    }
    var ok := RemoveItem(fs, target);
    r := if ok then Shipped else Failed;
  }

  /** Two files that can be read have different contents. */
  predicate FilesDiffer(ns: Nodes, p: Path, q: Path) {
    ReadThrough(ns, p).Some? && ReadThrough(ns, q).Some? && ReadThrough(ns, p) != ReadThrough(ns, q)
  }

  predicate EntryDiffers(ns: Nodes, target: Path, source: Path, name: string) {
    && ReadThrough(ns, target + [name]).Some?
    && (!Exists(ns, source + [name]) || FilesDiffer(ns, target + [name], source + [name]))
  }

  /** The shallow comparison: a file against the source, a directory's own files against those of the
      same name; what lies deeper, or in the source alone, does not count. */
  predicate Differs(ns: Nodes, cut: map<Path, set<string>>, target: Path, source: Path)
    requires target in ns
  {
    if ns[target] != Dir then FilesDiffer(ns, target, source)
    else exists name | name in Listing(ns, cut, target) :: EntryDiffers(ns, target, source, name)
  }

  /** `content_differs`; what cannot be read is taken for unchanged. */
  method ContentDiffers(fs: FileSystem, target: Path, source: Path) returns (differs: bool)
    requires target in fs.nodes
    ensures differs ==> Differs(fs.nodes, fs.cut, target, source)
    ensures fs.reliable ==> (differs <==> Differs(fs.nodes, fs.cut, target, source))
  {
    if fs.nodes[target] != Dir {
      var fails := fs.IoFails();
      return Exists(fs.nodes, source) && !fails && FilesDiffer(fs.nodes, target, source);
    }
    var listed, names := fs.ReadDir(target);
    if !listed {
      return false;
    }
    var rest := names;
    while rest != {}
      invariant rest <= names
      invariant fs.reliable ==> forall name | name in names - rest :: !EntryDiffers(fs.nodes, target, source, name)
      decreases rest
    {
      var name :| name in rest;
      if ReadThrough(fs.nodes, target + [name]).Some? {
        if !Exists(fs.nodes, source + [name]) {
          return true;
        }
        var fails := fs.IoFails();
        if !fails && FilesDiffer(fs.nodes, target + [name], source + [name]) {
          return true;
        }
      }
      rest := rest - {name};
    }
    return false;
  }

  /** A directory goes with all that is in it; a file or a link alone. */
  method RemoveItem(fs: FileSystem, p: Path) returns (ok: bool)
    requires fs.Valid() && p in fs.nodes && p != []
    modifies fs
    ensures fs.Valid() && old(fs.history) <= fs.history
    ensures Removes(old(fs.nodes), fs.nodes, p)
    ensures forall i | |old(fs.history)| <= i < |fs.history| :: Removes(old(fs.nodes), fs.history[i], p)
    ensures ok ==> Vacant(fs.nodes, p)
    ensures ok && old(fs.nodes)[p] != Dir ==> fs.nodes == old(fs.nodes) - {p}
    ensures fs.reliable ==> ok
  {
    if fs.nodes[p] == Dir {
      ok := fs.RemoveDirAll(p);
    } else {
      ok := fs.RemoveFile(p);
      if ok {
        AbsentIsVacant(fs.nodes, p);
      }
    }
  }

  /** Unship after a fresh link restores the tree, but for directories made on the way. */
  method ShipThenUnship(fs: FileSystem, store: Path, item: string, category: Category, project: Path, agent: Agent, force: bool)
    returns (shipped: ShipResult, unshipped: ShipResult)
    requires fs.Valid() && Disjoint(store, project)
    requires Target(project, item, category, agent) !in fs.nodes
    modifies fs
    ensures fs.Valid()
    ensures shipped.Shipped? && unshipped.Shipped? ==>
              MakesWay(old(fs.nodes), fs.nodes, Parent(Target(project, item, category, agent)))
    ensures fs.reliable && SafeName(item) && WayOpen(old(fs.nodes), Parent(Target(project, item, category, agent))) ==>
              shipped.Shipped? && unshipped.Shipped?
  {
    shipped := Ship(fs, store, item, category, project, agent, Symlink);
    unshipped := Unship(fs, store, item, category, project, agent, force);
  }

  // ---- absorb ----

  /** The whole original is at the project's place or at the store's. */
  ghost predicate KeepsItem(original: Nodes, now: Nodes, project: Path, store: Path) {
    SameTree(original, project, now, project) || SameTree(original, project, now, store)
  }

  /** The copy into the store; a copy that fails is cleaned up, as far as that succeeds. */
  method CopyToStore(fs: FileSystem, item: Path, stored: Path) returns (ok: bool)
    requires fs.Valid() && Disjoint(item, stored) && stored != [] && stored !in fs.nodes
    modifies fs
    ensures fs.Valid() && old(fs.history) <= fs.history
    ensures Touches(old(fs.nodes), fs.nodes, stored)
    ensures StepsTouch(fs.history, |old(fs.history)|, old(fs.nodes), stored)
    ensures ok ==> WayOpen(old(fs.nodes), Parent(stored)) && Copied(old(fs.nodes), fs.cut, item, fs.nodes, stored)
    ensures fs.reliable && CanPlace(old(fs.nodes), fs.cut, item, stored, Copy) ==> ok
    ensures fs.reliable && !ok ==> Vacant(fs.nodes, stored)
  {
    ghost var before := fs.nodes;
    ok := MakeWayTo(fs, stored);
    ghost var made := fs.history;
    if ok {
      ok := CopyNew(fs, before, item, stored);
      ghost var copied := fs.history;
      StepsGoOn(made, copied, |old(fs.history)|, before, stored);
      if !ok {
        CleanUp(fs, before, stored);
        StepsGoOn(copied, fs.history, |old(fs.history)|, before, stored);
      }
    }
  }

  method CleanUp(fs: FileSystem, ghost before: Nodes, p: Path)
    requires fs.Valid() && Touches(before, fs.nodes, p) && p != [] && p !in before
    modifies fs
    ensures fs.Valid() && old(fs.history) <= fs.history
    ensures Touches(before, fs.nodes, p) && StepsTouch(fs.history, |old(fs.history)|, before, p)
    ensures fs.reliable ==> Vacant(fs.nodes, p)
  {
    ghost var partial, n := fs.nodes, |fs.history|;
    var tree := fs.RemoveDirAll(p);
    ghost var left, m := fs.nodes, |fs.history|;
    RemovesTouches(before, partial, left, p);
    forall i | n <= i < m ensures Touches(before, fs.history[i], p) {
      RemovesTouches(before, partial, fs.history[i], p);
    }
    var file := fs.RemoveFile(p);
    RemovesTouches(before, left, fs.nodes, p);
    if p !in fs.nodes { AbsentIsVacant(fs.nodes, p); }
  }

  lemma RemovesTouches(before: Nodes, mid: Nodes, after: Nodes, p: Path)
    requires Touches(before, mid, p) && Removes(mid, after, p)
    ensures Touches(before, after, p)
  {
  }

  lemma SameTreeAgain(a: Nodes, p: Path, b: Nodes, q: Path, c: Nodes, r: Path)
    requires SameTree(a, p, b, q) && SameTree(b, q, c, r)
    ensures SameTree(a, p, c, r)
  {
    forall t: Path ensures (p + t in a <==> r + t in c) && (p + t in a ==> a[p + t] == c[r + t]) {
      assert q + t in b <==> r + t in c;
    }
  }

  lemma RemovesElsewhere(before: Nodes, after: Nodes, p: Path, q: Path)
    requires Removes(before, after, p) && Disjoint(p, q)
    ensures SameTree(before, q, after, q)
  {
    assert Touches(before, after, p);
    TouchesElsewhere(before, after, p, q);
  }

  /** The copy is complete; from here on the store keeps the original. */
  method LinkInstead(fs: FileSystem, item: Path, stored: Path) returns (r: ShipResult)
    requires fs.Valid() && Disjoint(item, stored) && item != [] && item in fs.nodes
    modifies fs
    ensures fs.Valid() && old(fs.history) <= fs.history
    ensures SameTree(old(fs.nodes), stored, fs.nodes, stored)
    ensures forall i | |old(fs.history)| <= i < |fs.history| :: SameTree(old(fs.nodes), stored, fs.history[i], stored)
    ensures r.Shipped? ==> item in fs.nodes && fs.nodes[item] == RelativeLink(stored, item)
    ensures fs.reliable ==> r.Shipped?
  {
    ghost var copied, n := fs.nodes, |fs.history|;
    var ok := RemoveItem(fs, item);
    RemovesElsewhere(copied, fs.nodes, item, stored);
    forall i | n <= i < |fs.history| ensures SameTree(copied, stored, fs.history[i], stored) {
      RemovesElsewhere(copied, fs.history[i], item, stored);
    }
    if !ok {
      return Failed;
    }
    ghost var removed, m := fs.nodes, |fs.history|;
    assert item <= item && item !in removed;
    WayStaysOpen(copied, removed, item);
    r := ShipTo(fs, stored, item, Symlink);
    TouchesElsewhere(removed, fs.nodes, item, stored);
    SameTreeAgain(copied, stored, removed, stored, fs.nodes, stored);
    forall i | n <= i < |fs.history| ensures SameTree(copied, stored, fs.history[i], stored) {
      if m <= i {
        TouchesElsewhere(removed, fs.history[i], item, stored);
        SameTreeAgain(copied, stored, removed, stored, fs.history[i], stored);
      }
    }
  }

  /** What is removed at a place leaves the way to it open. */
  lemma WayStaysOpen(before: Nodes, after: Nodes, p: Path)
    requires Tree(before) && Tree(after) && p in before && p != [] && Removes(before, after, p)
    ensures WayOpen(after, Parent(p))
  {
    assert !(p <= Parent(p));
    WayToNode(after, Parent(p));
  }

  /** What absorb asks for before it copies, and the way it needs into the store. */
  ghost predicate CanAbsorb(ns: Nodes, item: string, stored: Path, place: Path) {
    SafeName(item) && place in ns && !ns[place].Link? && stored !in ns && WayOpen(ns, Parent(stored))
  }

  /** Absorb. Where every listing of the original is complete and nothing in it is a link, every state of
      the run keeps the whole original at one of the two places, whatever fails; and a success ends with a
      link to the store and the original there. A success with a listing that broke off, which the source
      takes for the end of the directory, has lost what was not listed: the original is whole in neither
      place. With reliable I/O absorb succeeds exactly if it can, and a failure leaves both places as they
      were. */
  method Absorb(fs: FileSystem, store: Path, item: string, category: Category, project: Path, agent: Agent)
    returns (r: ShipResult)
    requires fs.Valid() && Disjoint(store, project)
    requires var stored := Source(store, item, category); stored in fs.nodes ==> !fs.nodes[stored].Link?
    modifies fs
    ensures fs.Valid() && old(fs.history) <= fs.history
    ensures var stored, place := Source(store, item, category), Target(project, item, category, agent);
            Faithful(fs.cut, old(fs.nodes), place) ==>
              forall i | |old(fs.history)| <= i < |fs.history| :: KeepsItem(old(fs.nodes), fs.history[i], place, stored)
    ensures var stored, place := Source(store, item, category), Target(project, item, category, agent);
            r.Shipped? ==>
              && place in fs.nodes && fs.nodes[place] == RelativeLink(stored, place)
              && Copied(old(fs.nodes), fs.cut, place, fs.nodes, stored)
              && (SameTree(old(fs.nodes), place, fs.nodes, stored) <==> Faithful(fs.cut, old(fs.nodes), place))
              && (KeepsItem(old(fs.nodes), fs.nodes, place, stored) <==> Faithful(fs.cut, old(fs.nodes), place))
    ensures var stored, place := Source(store, item, category), Target(project, item, category, agent);
            !SafeName(item) || place !in old(fs.nodes) || old(fs.nodes)[place].Link? || stored in old(fs.nodes) ==>
              r.Failed? && fs.nodes == old(fs.nodes) && fs.history == old(fs.history)
    ensures var stored, place := Source(store, item, category), Target(project, item, category, agent);
            && (r.Shipped? ==> CanAbsorb(old(fs.nodes), item, stored, place))
            && (fs.reliable && LinksReadable(fs.cut, old(fs.nodes), place) ==>
                  (r.Shipped? <==> CanAbsorb(old(fs.nodes), item, stored, place)))
            && (fs.reliable && r.Failed? ==>
                  SameTree(old(fs.nodes), place, fs.nodes, place) && SameTree(old(fs.nodes), stored, fs.nodes, stored))
  {
    if !SafeName(item) {
      return Failed;
    }
    PlacesAreDisjoint(store, project, item, category, agent);
    var stored, place := Source(store, item, category), Target(project, item, category, agent);
    if place !in fs.nodes || fs.nodes[place].Link? || stored in fs.nodes {
      return Failed;
    }
    r := AbsorbAt(fs, stored, place);
  }

  method AbsorbAt(fs: FileSystem, stored: Path, place: Path) returns (r: ShipResult)
    requires fs.Valid() && Disjoint(stored, place) && stored != [] && place != []
    requires place in fs.nodes && !fs.nodes[place].Link? && stored !in fs.nodes
    modifies fs
    ensures fs.Valid() && old(fs.history) <= fs.history
    ensures Faithful(fs.cut, old(fs.nodes), place) ==>
              forall i | |old(fs.history)| <= i < |fs.history| :: KeepsItem(old(fs.nodes), fs.history[i], place, stored)
    ensures r.Shipped? ==>
              && place in fs.nodes && fs.nodes[place] == RelativeLink(stored, place)
              && Copied(old(fs.nodes), fs.cut, place, fs.nodes, stored)
              && (SameTree(old(fs.nodes), place, fs.nodes, stored) <==> Faithful(fs.cut, old(fs.nodes), place))
              && (KeepsItem(old(fs.nodes), fs.nodes, place, stored) <==> Faithful(fs.cut, old(fs.nodes), place))
    ensures r.Shipped? ==> WayOpen(old(fs.nodes), Parent(stored))
    ensures fs.reliable && LinksReadable(fs.cut, old(fs.nodes), place) && WayOpen(old(fs.nodes), Parent(stored)) ==> r.Shipped?
    ensures fs.reliable && r.Failed? ==>
              SameTree(old(fs.nodes), place, fs.nodes, place) && SameTree(old(fs.nodes), stored, fs.nodes, stored)
  {
    ghost var original, n := fs.nodes, |fs.history|;
    var ok := CopyToStore(fs, place, stored);
    forall i | n <= i < |fs.history| ensures KeepsItem(original, fs.history[i], place, stored) {
      TouchesElsewhere(original, fs.history[i], stored, place);
    }
    if !ok {
      TouchesElsewhere(original, fs.nodes, stored, place);
      AbsentIsVacant(original, stored);
      if fs.reliable { BothVacant(original, fs.nodes, stored); }
      return Failed;
    }
    ghost var copied, m := fs.nodes, |fs.history|;
    TouchesElsewhere(original, copied, stored, place);
    SameNode(original, copied, place);
    CopyIsTheOriginal(original, fs.cut, place, copied, stored);
    r := LinkInstead(fs, place, stored);
    forall i | n <= i < |fs.history| && Faithful(fs.cut, original, place)
      ensures KeepsItem(original, fs.history[i], place, stored)
    {
      if m <= i { SameTreeAgain(original, place, copied, stored, fs.history[i], stored); }
    }
    if r.Shipped? {
      CopiedAgain(original, fs.cut, place, copied, fs.nodes, stored);
      CopyIsTheOriginal(original, fs.cut, place, fs.nodes, stored);
      LinkIsNotTheOriginal(original, fs.nodes, place);
    }
  }

  lemma BothVacant(a: Nodes, b: Nodes, p: Path)
    requires Vacant(a, p) && Vacant(b, p)
    ensures SameTree(a, p, b, p)
  {
    forall t: Path ensures p + t !in a && p + t !in b { assert p <= p + t; }
  }

  lemma CopiedAgain(before: Nodes, cut: map<Path, set<string>>, p: Path, mid: Nodes, after: Nodes, q: Path)
    requires Copied(before, cut, p, mid, q) && SameTree(mid, q, after, q)
    ensures Copied(before, cut, p, after, q)
  {
    forall t: Path
      ensures q + t in after <==> p + t in before && Shown(cut, p, t)
      ensures q + t in after ==> Mirrors(before, p + t, after[q + t])
    {
      assert q + t in mid <==> q + t in after;
    }
  }

  lemma LinkIsNotTheOriginal(before: Nodes, after: Nodes, p: Path)
    requires p in before && !before[p].Link? && p in after && after[p].Link?
    ensures !SameTree(before, p, after, p)
  {
    if SameTree(before, p, after, p) { SameNode(before, after, p); }
  }

  /** With I/O that never fails but for a listing that breaks off, absorb succeeds, and what was not
      listed is at neither place. */
  method AbsorbLosesTheRest(
    fs: FileSystem, store: Path, item: string, category: Category, project: Path, agent: Agent, ghost t: Path)
    returns (r: ShipResult)
    requires fs.Valid() && fs.reliable && Disjoint(store, project)
    requires var stored, place := Source(store, item, category), Target(project, item, category, agent);
             && CanAbsorb(fs.nodes, item, stored, place) && LinksReadable(fs.cut, fs.nodes, place)
             && place + t in fs.nodes && !Shown(fs.cut, place, t)
    modifies fs
    ensures fs.Valid() && old(fs.history) <= fs.history && r.Shipped?
    ensures var stored, place := Source(store, item, category), Target(project, item, category, agent);
            Copied(old(fs.nodes), fs.cut, place, fs.nodes, stored) && place + t !in fs.nodes && stored + t !in fs.nodes
  {
    ghost var before := fs.nodes;
    r := Absorb(fs, store, item, category, project, agent);
    UnlistedIsLost(before, fs.cut, Target(project, item, category, agent), fs.nodes, Source(store, item, category), t);
  }

  /** The loss is real: a skill of two files whose listing breaks off after the first is absorbed, and its
      second file is gone. */
  method AbsorbLosesAFile() returns (fs: FileSystem, r: ShipResult)
    ensures fs.Valid() && fs.reliable && r.Shipped?
    ensures var place, stored := ["p", ".claude", "skills", "s"], ["store", "skills", "s"];
            && fs.history[0] == TwoFiles() && place + ["b"] in TwoFiles() && TwoFiles()[place + ["b"]] == File("2")
            && stored + ["a"] in fs.nodes && place + ["b"] !in fs.nodes && stored + ["b"] !in fs.nodes
  {
    ghost var place, stored := ["p", ".claude", "skills", "s"], ["store", "skills", "s"];
    var cut := map[["p", ".claude", "skills", "s"] := {"a"}];
    TwoFilesTree();
    fs := new FileSystem(TwoFiles(), cut, true);
    DifferentRoots();
    assert Target(["p"], "s", Skill, Claude) == place && Source(["store"], "s", Skill) == stored;
    TwoFilesCanBeAbsorbed(cut);
    ListedAndNot(cut, place);
    r := AbsorbLosesTheRest(fs, ["store"], "s", Skill, ["p"], Claude, ["b"]);
  }

  lemma DifferentRoots()
    ensures Disjoint(["store"], ["p"])
  {
    assert ["store"][0] != ["p"][0];
  }

  function NoFiles(): Nodes {
    map[[] := Dir, ["store"] := Dir, ["p"] := Dir, ["p", ".claude"] := Dir, ["p", ".claude", "skills"] := Dir,
        ["p", ".claude", "skills", "s"] := Dir]
  }

  function TwoFiles(): Nodes {
    NoFiles()[["p", ".claude", "skills", "s", "a"] := File("1")][["p", ".claude", "skills", "s", "b"] := File("2")]
  }

  lemma NoFilesTree()
    ensures Tree(NoFiles())
  {
    assert Parent(["store"]) == [] && Parent(["p"]) == [] && Parent(["p", ".claude"]) == ["p"];
    assert Parent(["p", ".claude", "skills"]) == ["p", ".claude"];
    assert Parent(["p", ".claude", "skills", "s"]) == ["p", ".claude", "skills"];
  }

  lemma TwoFilesTree()
    ensures Tree(TwoFiles())
  {
    var s, a, b := ["p", ".claude", "skills", "s"], ["p", ".claude", "skills", "s", "a"], ["p", ".claude", "skills", "s", "b"];
    NoFilesTree();
    assert Parent(a) == s && Parent(b) == s && a[4] != b[4];
    assert forall q | q in NoFiles() :: |q| <= 4;
    KeepsTree(NoFiles(), a, File("1"));
    KeepsTree(NoFiles()[a := File("1")], b, File("2"));
  }

  lemma TwoFilesCanBeAbsorbed(cut: map<Path, set<string>>)
    ensures CanAbsorb(TwoFiles(), "s", ["store", "skills", "s"], ["p", ".claude", "skills", "s"])
    ensures LinksReadable(cut, TwoFiles(), ["p", ".claude", "skills", "s"])
  {
    var ns := TwoFiles();
    assert forall q | q in ns :: !ns[q].Link?;
    assert Parent(["store", "skills", "s"]) == ["store", "skills"];
    forall q | q in ns && q <= ["store", "skills"] ensures ns[q] == Dir {
      assert q == [] || q[0] == "store";
    }
  }

  lemma ListedAndNot(cut: map<Path, set<string>>, place: Path)
    requires cut == map[place := {"a"}] && place == ["p", ".claude", "skills", "s"]
    ensures !Shown(cut, place, ["b"]) && Shown(cut, place, ["a"])
    ensures place + ["a"] in TwoFiles() && place + ["b"] in TwoFiles() && TwoFiles()[place + ["b"]] == File("2")
  {
    var a, b := ["a"], ["b"];
    assert place + b[..0] == place && !Listed(cut, place + b[..0], b[0]);
    assert place + a[..0] == place;
    assert place + a == ["p", ".claude", "skills", "s", "a"] && place + b == ["p", ".claude", "skills", "s", "b"];
  }
}
