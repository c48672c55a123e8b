/**
  Containment of target paths and their relative form, decided by the source on identity
  strings and shown here to be about components; and where a project's directory lies in
  its worktrees.
*/
module TargetContainment {
  import opened Options
  import opened PathComponents
  import opened TargetPaths

  function TrimSlashes(s: string): string {
    if EndsInSlash(s) then TrimSlashes(s[..|s| - 1]) else s
  }

  /** `target_path_is_within` */
  predicate IsWithin(path: string, root: string) {
    var p, r := Identity(path), Identity(root);
    || p == r
    || (var prefix := TrimSlashes(r); if prefix == "" then Absolute(p) else prefix + "/" <= p)
  }

  /** `target_path_relative` */
  function Relative(path: string, root: string): Option<string> {
    if ParentDir in Components(path) then None
    else
      var p, r := Identity(path), Identity(root);
      if p == r then Some("")
      else
        var prefix := TrimSlashes(r);
        if prefix == "" then if Absolute(p) then Some(p[1..]) else None
        else if prefix + "/" <= p then Some(p[|prefix| + 1..]) else None
  }

  // ---- prefixes of strings and of components ----

  lemma PushTwice(x: string, y: string, z: string)
    requires x != "" && (EndsInSlash(x) ==> x == "/") && y != "" && !Absolute(y) && !EndsInSlash(y) && !Absolute(z)
    ensures Push(Push(x, y), z) == Push(x, Push(y, z))
  {
    if x == "/" {
      assert "/" + y + "/" + z == "/" + (y + "/" + z);
    } else {
      assert x + "/" + y + "/" + z == x + "/" + (y + "/" + z);
    }
  }

  lemma RenderLast(a: seq<Component>, c: Component)
    ensures Render(a + [c]) == Push(Render(a), Text(c))
  {
    assert (a + [c])[..|a|] == a;
  }

  lemma NameIsRelative(c: Component)
    requires c.ParentDir? || (c.Normal? && ValidName(c.name))
    ensures !Absolute(Text(c)) && !EndsInSlash(Text(c)) && Text(c) != ""
  {
  }

  lemma ProperParts(a: seq<Component>, b: seq<Component>)
    requires Proper(a + b) && a != []
    ensures Proper(a) && Proper(b) && forall i | 0 <= i < |b| :: !b[i].RootDir?
  {
    forall i | 0 <= i < |a| ensures a[i] == (a + b)[i] {}
    forall i | 0 <= i < |b| ensures b[i] == (a + b)[|a| + i] {}
  }

  lemma Regroup(a: seq<Component>, init: seq<Component>, c: Component)
    ensures a + (init + [c]) == (a + init) + [c]
  {
  }

  /** Rendering more components joins their rendering. */
  lemma {:induction false} RenderConcat(a: seq<Component>, b: seq<Component>)
    requires Proper(a + b) && a != [] && b != []
    ensures Render(a + b) == Push(Render(a), Render(b))
    ensures !Absolute(Render(b)) && !EndsInSlash(Render(b)) && Render(b) != ""
    decreases |b|
  {
    var c, init := b[|b| - 1], b[..|b| - 1];
    ProperParts(a, b);
    assert b == init + [c];
    if init == [] {
      RenderOne(a, c);
    } else {
      Regroup(a, init, c);
      ProperParts(a + init, [c]);
      RenderConcat(a, init);
      RenderNext(a, init, c);
    }
  }

  lemma RenderOne(a: seq<Component>, c: Component)
    requires c.ParentDir? || (c.Normal? && ValidName(c.name))
    ensures Render([c]) == Text(c) && Render(a + [c]) == Push(Render(a), Render([c]))
    ensures !Absolute(Render([c])) && !EndsInSlash(Render([c])) && Render([c]) != ""
  {
    NameIsRelative(c);
    RenderLast(a, c);
    RenderLast([], c);
    assert [] + [c] == [c] && "" + Text(c) == Text(c);
  }

  lemma RenderNext(a: seq<Component>, init: seq<Component>, c: Component)
    requires Proper(a) && a != [] && (c.ParentDir? || (c.Normal? && ValidName(c.name)))
    requires Render(a + init) == Push(Render(a), Render(init))
    requires !Absolute(Render(init)) && !EndsInSlash(Render(init)) && Render(init) != ""
    ensures Render(a + init + [c]) == Push(Render(a), Render(init + [c]))
    ensures !Absolute(Render(init + [c])) && !EndsInSlash(Render(init + [c])) && Render(init + [c]) != ""
  {
    NameIsRelative(c);
    RenderLast(a + init, c);
    RenderLast(init, c);
    RenderedEndIsRoot(a);
    PushTwice(Render(a), Render(init), Text(c));
    PushEnds(Render(init), Text(c));
  }

  lemma PushEnds(x: string, y: string)
    requires x != "" && !Absolute(x) && y != "" && !Absolute(y) && !EndsInSlash(y)
    ensures !Absolute(Push(x, y)) && !EndsInSlash(Push(x, y)) && Push(x, y) != ""
  {
  }

  /** A rendering that continues behind a separator has more components. */
  lemma ExtensionHasPrefix(p: seq<Component>, r: seq<Component>, rest: string)
    requires Proper(p) && Proper(r) && r != [] && Render(p) == Render(r) + "/" + rest
    ensures r < p
  {
    RenderEnds(r);
    RenderThenSplit(p);
    RenderThenSplit(r);
    ComponentsAtSlash(Render(r), rest);
    assert |Render(p)| > |Render(r)|;
    assert p != r;
  }

  lemma PrefixHasExtension(p: seq<Component>, r: seq<Component>)
    requires Proper(p) && Proper(r) && r != [] && r != [RootDir] && r < p
    ensures Render(p) == Render(r) + "/" + Render(p[|r|..])
  {
    RenderEnds(r);
    assert p == r + p[|r|..];
    RenderConcat(r, p[|r|..]);
  }

  /** Of proper components other than the root alone, the rendering of one extends that of the other
      behind a separator exactly when the components do. */
  lemma ExtensionIsPrefix(p: seq<Component>, r: seq<Component>)
    requires Proper(p) && Proper(r) && r != [] && r != [RootDir]
    ensures Render(r) + "/" <= Render(p) <==> r < p
    ensures r < p ==> Render(p)[|Render(r)| + 1..] == Render(p[|r|..])
  {
    if Render(r) + "/" <= Render(p) {
      var rest := RestBehindSlash(Render(r), Render(p));
      ExtensionHasPrefix(p, r, rest);
    }
    if r < p {
      PrefixHasExtension(p, r);
      BehindSlash(Render(r), Render(p[|r|..]));
    }
  }

  lemma RestBehindSlash(x: string, y: string) returns (rest: string)
    requires x + "/" <= y
    ensures y == x + "/" + rest
  {
    rest := y[|x| + 1..];
    assert y[..|x| + 1] == x + "/";
  }

  lemma BehindSlash(x: string, z: string)
    ensures x + "/" <= x + "/" + z && (x + "/" + z)[|x| + 1..] == z
  {
  }

  lemma TrimOfRender(r: seq<Component>)
    requires Proper(r)
    ensures TrimSlashes(Render(r)) == if r == [RootDir] then "" else Render(r)
    ensures Render(r) == "" <==> r == []
  {
    RenderOfRoot();
    if r != [] { RenderEnds(r); }
    if r == [RootDir] { assert "/"[..0] == ""; }
  }

  /** Containment of strings is containment of components, the root included; of a root whose identity is
      empty only the same identity and every absolute path are within. */
  lemma WithinIsPrefix(path: string, root: string)
    ensures IsWithin(path, root) <==>
            if Normalized(root) == [] then Normalized(path) == [] || Absolute(path)
            else Normalized(root) <= Normalized(path)
    ensures Absolute(root) ==> (IsWithin(path, root) <==> Normalized(root) <= Normalized(path))
  {
    var p, r := Normalized(path), Normalized(root);
    IdentityIsTidy(path);
    IdentityIsTidy(root);
    SameIdentity(path, root);
    TrimOfRender(r);
    if r != [] && r != [RootDir] { ExtensionIsPrefix(p, r); }
  }

  /** Containment of absolute paths is a partial order up to identity. */
  lemma {:induction false} WithinIsAnOrder(p: string, q: string, r: string)
    requires Absolute(p) && Absolute(q) && Absolute(r)
    ensures IsWithin(p, p)
    ensures IsWithin(p, q) && IsWithin(q, r) ==> IsWithin(p, r)
    ensures IsWithin(p, q) && IsWithin(q, p) <==> Identity(p) == Identity(q)
  {
    WithinIsPrefix(p, q);
    WithinIsPrefix(q, r);
    WithinIsPrefix(p, r);
    WithinIsPrefix(q, p);
    SameIdentity(p, q);
  }

  // ---- relative paths ----

  /** A path without parent components has a relative form exactly when it is within the root. */
  lemma RelativeIffWithin(path: string, root: string)
    ensures Relative(path, root).Some? <==> ParentDir !in Components(path) && IsWithin(path, root)
  {
  }

  lemma {:induction false} FoldNames(cs: seq<Component>, names: seq<Component>)
    requires forall i | 0 <= i < |names| :: names[i].Normal?
    ensures FoldAll(cs + names) == FoldAll(cs) + names
    decreases |names|
  {
    if names == [] {
      assert cs + names == cs;
    } else {
      var last := |names| - 1;
      assert (cs + names)[..|cs + names| - 1] == cs + names[..last];
      FoldNames(cs, names[..last]);
    }
  }

  lemma {:induction false} FoldWithoutParents(cs: seq<Component>)
    requires ParentDir !in cs
    ensures ParentDir !in FoldAll(cs)
    decreases |cs|
  {
    if cs != [] { FoldWithoutParents(cs[..|cs| - 1]); }
  }

  /** The parts of a rendered list of names are those names. */
  lemma BodyOfRender(names: seq<Component>)
    requires Proper(names) && forall i | 0 <= i < |names| :: names[i].Normal?
    ensures Body(Split(Render(names))) == names && !Absolute(Render(names))
  {
    RenderThenSplit(names);
    if names != [] { RenderEnds(names); }
  }

  /** The normal components of a path with a relative form: a root at most, and names. */
  predicate NamesOnly(p: seq<Component>) {
    forall i | 0 <= i < |p| :: p[i].Normal? || (i == 0 && p[i].RootDir?)
  }

  lemma WithoutParentsNamesOnly(path: string)
    requires ParentDir !in Components(path)
    ensures Proper(Normalized(path)) && NamesOnly(Normalized(path))
  {
    var p := Normalized(path);
    IdentityIsTidy(path);
    FoldWithoutParents(Components(path));
    assert forall i | 0 <= i < |p| :: p[i] in p;
  }

  /** The cases of `target_path_relative`, on components. */
  lemma RelativeCases(path: string, root: string)
    requires ParentDir !in Components(path)
    ensures var p, r := Normalized(path), Normalized(root);
            && (p == r ==> Relative(path, root) == Some(""))
            && (p != r && (r == [] || r == [RootDir]) ==>
                  Relative(path, root) == if Absolute(Render(p)) then Some(Render(p)[1..]) else None)
            && (p != r && r != [] && r != [RootDir] ==>
                  Relative(path, root) ==
                  if Render(r) + "/" <= Render(p) then Some(Render(p)[|Render(r)| + 1..]) else None)
  {
    SameIdentity(path, root);
    IdentityIsTidy(root);
    TrimOfRender(Normalized(root));
  }

  /** What the relative form consists of. */
  lemma RelativeIsTheRest(path: string, root: string)
    requires Relative(path, root).Some?
    ensures var s, p, r := Relative(path, root).value, Normalized(path), Normalized(root);
            && (if r == [] && p != [] then Absolute(path) && s == Render(p[1..])
                else r <= p && s == Render(p[|r|..]))
            && Proper(p) && NamesOnly(p)
  {
    var p, r := Normalized(path), Normalized(root);
    RelativeCases(path, root);
    WithoutParentsNamesOnly(path);
    if p == r {
      assert p[|r|..] == [] && Render([]) == "";
    } else if r == [] || r == [RootDir] {
      IdentityIsTidy(path);
      RestOfRooted(p);
    } else {
      IdentityIsTidy(root);
      ExtensionIsPrefix(p, r);
    }
  }

  lemma RestOfRooted(p: seq<Component>)
    requires Proper(p) && Rooted(p)
    ensures Render(p) != "" && Render(p)[1..] == Render(p[1..])
  {
    RenderOfRoot();
    if |p| == 1 {
      assert p == [RootDir] && p[1..] == [];
      assert "/"[1..] == "" && Render([]) == "";
    } else {
      assert p == [RootDir] + p[1..];
      RenderConcat([RootDir], p[1..]);
      assert ("/" + Render(p[1..]))[1..] == Render(p[1..]);
    }
  }

  /** Joining a nonempty path with rendered names appends the names to its normal components. */
  lemma JoinNames(root: string, names: seq<Component>)
    requires root != "" && Proper(names) && forall i | 0 <= i < |names| :: names[i].Normal?
    ensures Normalized(Push(root, Render(names))) == Normalized(root) + names
  {
    BodyOfRender(names);
    ComponentsOfJoin(root, Render(names));
    FoldNames(Components(root), names);
  }

  lemma JoinStaysRelative(root: string, s: string)
    requires !Absolute(root) && !Absolute(s)
    ensures !Absolute(Push(root, s))
  {
  }

  /** A root with an empty identity cannot lead back to an absolute path. */
  lemma NoWayBack(path: string, root: string, names: seq<Component>)
    requires Normalized(root) == [] && Absolute(path)
    requires Proper(names) && forall i | 0 <= i < |names| :: names[i].Normal?
    ensures Identity(Push(root, Render(names))) != Identity(path)
  {
    BodyOfRender(names);
    IdentityIsTidy(root);
    IdentityIsTidy(path);
    JoinStaysRelative(root, Render(names));
    IdentityIsTidy(Push(root, Render(names)));
  }

  lemma WayBack(path: string, root: string, names: seq<Component>)
    requires Normalized(path) == Normalized(root) + names && (root == "" ==> names == [])
    requires Proper(names) && forall i | 0 <= i < |names| :: names[i].Normal?
    ensures Identity(Push(root, Render(names))) == Identity(path)
  {
    if root == "" {
      assert Push("", "") == "";
    } else {
      JoinNames(root, names);
    }
  }

  lemma PrefixAndRest(p: seq<Component>, r: seq<Component>)
    requires r <= p
    ensures p == r + p[|r|..]
  {
  }

  lemma WayBackToPath(path: string, root: string, p: seq<Component>, r: seq<Component>)
    requires p == Normalized(path) && r == Normalized(root) && r <= p && (r == [] ==> p == [])
    requires Proper(p) && NamesOnly(p)
    ensures Identity(Push(root, Render(p[|r|..]))) == Identity(path) && !Absolute(Render(p[|r|..]))
  {
    RelativeToNothing(p, r, root);
    RestIsNames(p, |r|);
    BodyOfRender(p[|r|..]);
    PrefixAndRest(p, r);
    WayBack(path, root, p[|r|..]);
  }

  /** The relative form is relative, and joined to the root it leads back to the path; for a root whose
      identity is empty only where the path's is empty too. */
  lemma {:induction false} RelativeRoundTrip(path: string, root: string)
    requires Relative(path, root).Some?
    ensures var s := Relative(path, root).value;
            && !Absolute(s)
            && (Identity(Push(root, s)) == Identity(path) <==> Identity(root) != "" || Identity(path) == "")
  {
    var p, r := Normalized(path), Normalized(root);
    RelativeIsTheRest(path, root);
    EmptyIdentity(root);
    EmptyIdentity(path);
    if r == [] && p != [] {
      RestIsNames(p, 1);
      BodyOfRender(p[1..]);
      NoWayBack(path, root, p[1..]);
    } else {
      WayBackToPath(path, root, p, r);
    }
  }

  lemma RootedName()
    ensures Components("/a") == [RootDir, Component.Normal("a")] && Normalized("/a") == [RootDir, Component.Normal("a")]
    ensures Normalized("") == []
  {
    assert "/" + "a" == "/a";
    SplitWithoutSlash("a");
    ComponentsOfRooted("a");
    TwoComponents();
  }

  /** The empty root: an absolute path has a relative form that does not lead back. */
  lemma EmptyRootHasNoWayBack()
    ensures Relative("/a", "") == Some("a") && Identity(Push("", "a")) != Identity("/a")
  {
    var name := [Component.Normal("a")];
    RootedName();
    TwoComponents();
    RelativeCases("/a", "");
    assert "/a"[1..] == "a";
    assert name[..0] == [] && Render(name) == "a";
    NoWayBack("/a", "", name);
  }

  lemma TwoComponents()
    ensures var cs := [RootDir, Component.Normal("a")]; FoldAll(cs) == cs && Render(cs) == "/a"
  {
    var cs := [RootDir, Component.Normal("a")];
    assert cs[..1] == [RootDir] && [RootDir][..0] == [];
    assert FoldAll([RootDir]) == [RootDir];
    RenderOfRoot();
  }

  lemma EmptyIdentity(path: string)
    ensures Identity(path) == "" <==> Normalized(path) == []
    ensures Rooted(Normalized(path)) <==> Absolute(path)
  {
    IdentityIsTidy(path);
    TrimOfRender(Normalized(path));
  }

  lemma RelativeToNothing(p: seq<Component>, r: seq<Component>, root: string)
    requires r == Normalized(root) && (r == [] ==> p == []) && r <= p && Proper(p)
    ensures root == "" ==> p[|r|..] == []
    ensures |r| == 0 ==> !Rooted(p)
  {
    if root == "" { assert Components("") == []; }
  }

  lemma RestIsNames(p: seq<Component>, n: nat)
    requires Proper(p) && n <= |p| && (n == 0 ==> !Rooted(p))
    requires NamesOnly(p)
    ensures Proper(p[n..]) && forall i | 0 <= i < |p[n..]| :: p[n..][i].Normal?
  {
    forall i | 0 <= i < |p[n..]| ensures p[n..][i] == p[n + i] {}
  }

  // ---- projection into worktrees ----

  /** Where `discover_targets` puts the project in a worktree, before anything is looked up on disk. */
  function Projected(configured: string, repository: string, worktree: string): Option<string> {
    var relative := Relative(configured, repository);
    if relative.None? then None
    else Some(if relative.value == "" then worktree else Push(worktree, relative.value))
  }

  lemma ProjectedComponents(configured: string, repository: string, worktree: string)
    requires Absolute(repository) && Absolute(worktree) && Projected(configured, repository, worktree).Some?
    ensures var c, r := Normalized(configured), Normalized(repository);
            && r <= c
            && Normalized(Projected(configured, repository, worktree).value) == Normalized(worktree) + c[|r|..]
  {
    var c, r := Normalized(configured), Normalized(repository);
    RelativeIsTheRest(configured, repository);
    IdentityIsTidy(repository);
    RestIsNames(c, |r|);
    ProperSlice(c, |r|);
    TrimOfRender(c[|r|..]);
    if c[|r|..] != [] { JoinNames(worktree, c[|r|..]); }
  }

  lemma ProperSlice(p: seq<Component>, n: nat)
    requires n <= |p| && Proper(p[n..])
    ensures p[n..] == [] ==> Render(p[n..]) == ""
  {
  }

  lemma TargetIsWithin(configured: string, repository: string, worktree: string)
    requires Absolute(repository) && Absolute(worktree) && Projected(configured, repository, worktree).Some?
    ensures IsWithin(Projected(configured, repository, worktree).value, worktree)
  {
    ProjectedComponents(configured, repository, worktree);
    WithinIsPrefix(Projected(configured, repository, worktree).value, worktree);
  }

  /** The project's own directory is the target in the repository root and in no other worktree. */
  lemma TargetInTheRepositoryRoot(configured: string, repository: string, worktree: string)
    requires Absolute(repository) && Absolute(worktree) && Projected(configured, repository, worktree).Some?
    ensures Identity(worktree) == Identity(repository)
            <==> Identity(Projected(configured, repository, worktree).value) == Identity(configured)
  {
    var c, r := Normalized(configured), Normalized(repository);
    ProjectedComponents(configured, repository, worktree);
    SameIdentity(worktree, repository);
    SameIdentity(Projected(configured, repository, worktree).value, configured);
    SameTail(Normalized(worktree), r, c[|r|..]);
    PrefixAndRest(c, r);
  }

  lemma DifferentWorktreesDifferentTargets(configured: string, repository: string, worktree: string, other: string)
    requires Absolute(repository) && Absolute(worktree) && Absolute(other)
    requires Projected(configured, repository, worktree).Some? && Projected(configured, repository, other).Some?
    ensures Identity(worktree) == Identity(other) <==>
            Identity(Projected(configured, repository, worktree).value) == Identity(Projected(configured, repository, other).value)
  {
    ProjectedComponents(configured, repository, worktree);
    ProjectedComponents(configured, repository, other);
    SameIdentity(worktree, other);
    SameIdentity(Projected(configured, repository, worktree).value, Projected(configured, repository, other).value);
    SameTail(Normalized(worktree), Normalized(other), Normalized(configured)[|Normalized(repository)|..]);
  }

  /** Every discovered target lies in its worktree; the one in the repository root itself is the
      configured project; and different worktrees never share a target. */
  lemma {:induction false} TargetsLieInTheirWorktrees(configured: string, repository: string, worktree: string, other: string)
    requires Absolute(repository) && Absolute(worktree) && Absolute(other)
    requires Projected(configured, repository, worktree).Some? && Projected(configured, repository, other).Some?
    ensures var target := Projected(configured, repository, worktree).value;
            && IsWithin(target, worktree)
            && (Identity(worktree) == Identity(repository) <==> Identity(target) == Identity(configured))
            && (Identity(worktree) == Identity(other)
                <==> Identity(target) == Identity(Projected(configured, repository, other).value))
  {
    TargetIsWithin(configured, repository, worktree);
    TargetInTheRepositoryRoot(configured, repository, worktree);
    DifferentWorktreesDifferentTargets(configured, repository, worktree, other);
  }

  lemma SameTail(a: seq<Component>, b: seq<Component>, tail: seq<Component>)
    ensures a + tail == b + tail <==> a == b
  {
    if a + tail == b + tail {
      assert |a| == |b|;
      assert a == (a + tail)[..|a|] == (b + tail)[..|b|] == b;
    }
  }
}
