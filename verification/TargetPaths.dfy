/**
  The lexical path algebra of workspace targets on POSIX: normalization, identity,
  containment, relative paths, and the projection of a project into its worktrees.
*/
module TargetPaths {
  import opened Options
  import opened PathComponents

  // ---- normalization ----

  /** One component of the loop in `normalize_target_path`, on components: a parent pops whatever is
      there but the root, even another parent. */
  function Fold(done: seq<Component>, c: Component): seq<Component> {
    match c
    case CurDir => done
    case ParentDir => if done == [] || done[|done| - 1].RootDir? then done + [c] else done[..|done| - 1]
    case _ => done + [c]
  }

  function FoldAll(cs: seq<Component>): seq<Component> {
    if cs == [] then [] else Fold(FoldAll(cs[..|cs| - 1]), cs[|cs| - 1])
  }

  /** The components of a path's identity. */
  function Normalized(path: string): seq<Component> {
    FoldAll(Components(path))
  }

  /** `target_path_identity` on POSIX. */
  function Identity(path: string): string {
    Render(Normalized(path))
  }

  /** What `Components` yields: the root and a dot only in first position. */
  ghost predicate Raw(cs: seq<Component>) {
    forall i | 0 <= i < |cs| ::
      && (cs[i].RootDir? || cs[i].CurDir? ==> i == 0)
      && (cs[i].Normal? ==> ValidName(cs[i].name))
  }

  predicate Rooted(cs: seq<Component>) {
    cs != [] && cs[0].RootDir?
  }

  /** A parent can stand only at the front, at most after the root. */
  ghost predicate Tidy(cs: seq<Component>) {
    Proper(cs) && forall i | 0 <= i < |cs| :: cs[i].ParentDir? ==> i == 0 || (i == 1 && cs[0].RootDir?)
  }

  lemma {:induction false} FoldAllIsTidy(cs: seq<Component>)
    requires Raw(cs)
    ensures Tidy(FoldAll(cs)) && (Rooted(FoldAll(cs)) <==> Rooted(cs))
    decreases |cs|
  {
    if cs != [] {
      var before := cs[..|cs| - 1];
      FoldAllIsTidy(before);
      if |cs| == 1 { assert before == [] && FoldAll(before) == []; }
    }
  }

  /** The identity has a parent component in first position at most, and splits into its own
      components; two paths have the same identity exactly when their normal components agree. */
  lemma IdentityIsTidy(path: string)
    ensures Tidy(Normalized(path)) && Components(Identity(path)) == Normalized(path)
    ensures Absolute(Identity(path)) <==> Absolute(path)
    ensures Rooted(Normalized(path)) <==> Absolute(path)
  {
    ComponentsAreProper(path);
    FoldAllIsTidy(Components(path));
    RenderThenSplit(Normalized(path));
    if Normalized(path) != [] { RenderEnds(Normalized(path)); }
  }

  lemma {:induction false} FoldTidy(cs: seq<Component>)
    requires Tidy(cs)
    ensures FoldAll(cs) == cs
    decreases |cs|
  {
    if cs != [] {
      var last := |cs| - 1;
      assert cs == cs[..last] + [cs[last]];
      FoldTidy(cs[..last]);
      if last == 1 { assert cs[..last] == [cs[0]]; }
    }
  }

  /** Normalizing twice is normalizing once. */
  lemma {:induction false} NormalizationIsIdempotent(path: string)
    ensures Identity(Identity(path)) == Identity(path)
  {
    IdentityIsTidy(path);
    FoldTidy(Normalized(path));
  }

  lemma SameIdentity(p: string, q: string)
    ensures Identity(p) == Identity(q) <==> Normalized(p) == Normalized(q)
  {
    IdentityIsTidy(p);
    IdentityIsTidy(q);
  }

  lemma PushRenders(cs: seq<Component>, c: Component)
    ensures Render(cs + [c]) == Push(Render(cs), Text(c))
  {
    assert (cs + [c])[..|cs|] == cs;
  }

  /** A parent pops the buffer, or is pushed where nothing is left to pop. */
  lemma PopRenders(done: seq<Component>)
    requires Proper(done)
    ensures var popped := Pop(Render(done));
            Render(Fold(done, ParentDir)) == if popped.Some? then popped.value else Push(Render(done), "..")
  {
    if done == [] || done[|done| - 1].RootDir? {
      NothingToPop(done);
      PushRenders(done, ParentDir);
    } else {
      PopOfRender(done, |done| - 1);
    }
  }

  /** One iteration on the buffer renders one iteration on components. */
  lemma NextRenders(cs: seq<Component>, i: nat)
    requires Raw(cs) && i < |cs|
    ensures var buffer, c := Render(FoldAll(cs[..i])), cs[i];
            Render(FoldAll(cs[..i + 1])) ==
            if c.CurDir? then buffer
            else if c.ParentDir? && Pop(buffer).Some? then Pop(buffer).value
            else Push(buffer, Text(c))
  {
    var done := FoldAll(cs[..i]);
    FoldAllIsTidy(cs[..i]);
    assert cs[..i + 1][..i] == cs[..i];
    assert FoldAll(cs[..i + 1]) == Fold(done, cs[i]);
    if cs[i].ParentDir? { PopRenders(done); }
    else if !cs[i].CurDir? { PushRenders(done, cs[i]); }
  }

  /** The source's loop on the string buffer. */
  method NormalizeTargetPath(path: string) returns (normalized: string)
    ensures normalized == Identity(path)
  {
    var components := Components(path);
    ComponentsAreProper(path);
    normalized := "";
    for i := 0 to |components|
      invariant normalized == Render(FoldAll(components[..i]))
    {
      NextRenders(components, i);
      match components[i] {
        case CurDir =>
        case ParentDir =>
          var popped := Pop(normalized);
          if popped.Some? {
            normalized := popped.value;
          } else {
            normalized := Push(normalized, Text(components[i]));
          }
        case _ =>
          normalized := Push(normalized, Text(components[i]));
      }
    }
    assert components[..|components|] == components;
  }

  // ---- what normalization preserves ----

  /** Where one component leads from a directory, given by its names from the root; the root is its own
      parent. */
  function Go(at: seq<string>, c: Component): seq<string> {
    match c
    case RootDir => []
    case CurDir => at
    case ParentDir => if at == [] then [] else at[..|at| - 1]
    case Normal(name) => at + [name]
  }

  /** The plain lexical walk from a directory. */
  function Walk(start: seq<string>, cs: seq<Component>): seq<string> {
    if cs == [] then start else Go(Walk(start, cs[..|cs| - 1]), cs[|cs| - 1])
  }

  /** How far below its start a path ends, climbing counted negatively. */
  function Height(cs: seq<Component>): int {
    if cs == [] then 0
    else
      var c := cs[|cs| - 1];
      Height(cs[..|cs| - 1]) + if c.Normal? then 1 else if c.ParentDir? then -1 else 0
  }

  /** How far above its start a path climbs on its way. */
  function Climb(cs: seq<Component>): nat {
    if cs == [] then 0
    else
      var before := Climb(cs[..|cs| - 1]);
      if before < -Height(cs) then -Height(cs) else before
  }

  lemma WalkOn(start: seq<string>, cs: seq<Component>, c: Component)
    ensures Walk(start, cs + [c]) == Go(Walk(start, cs), c)
  {
    assert (cs + [c])[..|cs|] == cs;
  }

  lemma HeightOn(cs: seq<Component>, c: Component)
    ensures Height(cs + [c]) == Height(cs) + if c.Normal? then 1 else if c.ParentDir? then -1 else 0
  {
    assert (cs + [c])[..|cs|] == cs;
  }

  /** Of the path a loop iteration extends, the walk gets the same extension, unless a parent is popped
      by a parent of a relative path. */
  lemma FoldWalks(start: seq<string>, done: seq<Component>, c: Component)
    requires Tidy(done) && (c.RootDir? ==> done == [])
    requires c.ParentDir? && done != [] && done[|done| - 1].ParentDir? ==> Rooted(done)
    ensures Walk(start, Fold(done, c)) == Go(Walk(start, done), c)
  {
    if c.ParentDir? && done != [] && !done[|done| - 1].RootDir? {
      var before, last := done[..|done| - 1], done[|done| - 1];
      assert done == before + [last];
      WalkOn(start, before, last);
      if last.ParentDir? {
        assert before == [RootDir];
        assert before[..0] == [];
      }
    } else if !c.CurDir? {
      WalkOn(start, done, c);
    }
  }

  lemma {:induction false} RootedWalks(start: seq<string>, cs: seq<Component>)
    requires Raw(cs) && Rooted(cs)
    ensures Walk(start, FoldAll(cs)) == Walk(start, cs)
    decreases |cs|
  {
    var last := |cs| - 1;
    FoldAllIsTidy(cs[..last]);
    if last == 0 {
      assert cs[..0] == [];
    } else {
      RootedWalks(start, cs[..last]);
    }
    FoldWalks(start, FoldAll(cs[..last]), cs[last]);
  }

  lemma FoldHeight(done: seq<Component>, c: Component)
    requires Tidy(done) && !Rooted(done) && !c.RootDir?
    ensures Height(Fold(done, c)) ==
            if c.ParentDir? && done != [] && done[|done| - 1].ParentDir? then Height(done) + 1
            else Height(done) + if c.Normal? then 1 else if c.ParentDir? then -1 else 0
  {
    if c.Normal? || (c.ParentDir? && done == []) { HeightOn(done, c); }
  }

  /** A tidy relative path that ends in a parent is that parent alone. */
  lemma TidyEndsInParent(cs: seq<Component>)
    requires Tidy(cs) && !Rooted(cs) && cs != [] && cs[|cs| - 1].ParentDir?
    ensures cs == [ParentDir] && Height(cs) == -1
  {
    assert cs[..0] == [];
  }

  lemma {:induction false} TidyHeight(cs: seq<Component>)
    requires Tidy(cs) && !Rooted(cs)
    ensures Height(cs) >= -1
    decreases |cs|
  {
    if cs != [] {
      var last := |cs| - 1;
      if last == 0 { assert cs[..0] == []; } else { ProperPrefix(cs, last); TidyHeight(cs[..last]); }
    }
  }

  /** A parent popped by a parent loses two levels; nothing gives them back. */
  lemma {:induction false} HeightOfFold(cs: seq<Component>)
    requires Raw(cs) && !Rooted(cs)
    ensures Height(FoldAll(cs)) >= Height(cs)
    ensures Height(FoldAll(cs)) == Height(cs) <==> Climb(cs) <= 1
    decreases |cs|
  {
    if cs != [] {
      var before, c := cs[..|cs| - 1], cs[|cs| - 1];
      HeightOfFold(before);
      FoldAllIsTidy(before);
      FoldAllIsTidy(cs);
      FoldHeight(FoldAll(before), c);
      TidyHeight(FoldAll(cs));
      if c.ParentDir? && FoldAll(before) != [] && FoldAll(before)[|FoldAll(before)| - 1].ParentDir? {
        TidyEndsInParent(FoldAll(before));
      }
    }
  }

  lemma {:induction false} RelativeWalks(start: seq<string>, cs: seq<Component>)
    requires Raw(cs) && !Rooted(cs) && Climb(cs) <= 1
    ensures Walk(start, FoldAll(cs)) == Walk(start, cs)
    decreases |cs|
  {
    if cs != [] {
      var before, c := cs[..|cs| - 1], cs[|cs| - 1];
      RelativeWalks(start, before);
      FoldAllIsTidy(before);
      HeightOfFold(before);
      HeightOfFold(cs);
      FoldHeight(FoldAll(before), c);
      FoldWalks(start, FoldAll(before), c);
    }
  }

  /** From a directory deep enough, a relative walk ends at the path's height below it. */
  lemma {:induction false} DeepWalk(start: seq<string>, cs: seq<Component>)
    requires forall i | 0 <= i < |cs| :: !cs[i].RootDir?
    requires Climb(cs) <= |start|
    ensures |Walk(start, cs)| == |start| + Height(cs) && -Height(cs) <= Climb(cs)
    decreases |cs|
  {
    if cs != [] { DeepWalk(start, cs[..|cs| - 1]); }
  }

  lemma {:induction false} TidyClimb(cs: seq<Component>)
    requires Tidy(cs) && !Rooted(cs)
    ensures Climb(cs) <= 1
    decreases |cs|
  {
    TidyHeight(cs);
    if cs != [] { ProperPrefix(cs, |cs| - 1); TidyClimb(cs[..|cs| - 1]); }
  }

  /** Normalization keeps where a path leads from every directory exactly when the path is absolute or
      climbs at most one level above its start. */
  lemma NormalizationKeepsMeaning(path: string)
    ensures (forall start :: Walk(start, Normalized(path)) == Walk(start, Components(path)))
            <==> Absolute(path) || Climb(Components(path)) <= 1
  {
    var cs := Components(path);
    ComponentsAreProper(path);
    if Absolute(path) {
      forall start ensures Walk(start, Normalized(path)) == Walk(start, cs) { RootedWalks(start, cs); }
    } else if Climb(cs) <= 1 {
      forall start ensures Walk(start, Normalized(path)) == Walk(start, cs) { RelativeWalks(start, cs); }
    } else {
      var start := seq(Climb(cs), _ => "d");
      FoldAllIsTidy(cs);
      TidyClimb(FoldAll(cs));
      HeightOfFold(cs);
      DeepWalk(start, cs);
      DeepWalk(start, FoldAll(cs));
      assert Walk(start, Normalized(path)) != Walk(start, cs);
    }
  }

  function Names(names: seq<string>): seq<Component> {
    seq(|names|, i requires 0 <= i < |names| => Component.Normal(names[i]))
  }

  /** Above its start, normalization keeps the names of the walk. */
  lemma FoldOfNames(front: seq<Component>, at: seq<string>, c: Component)
    requires front == [] || front == [RootDir]
    requires c.CurDir? || c.Normal? || (c.ParentDir? && at != [])
    ensures Fold(front + Names(at), c) == front + Names(Go(at, c))
    ensures |Go(at, c)| == |at| + if c.Normal? then 1 else if c.ParentDir? then -1 else 0
  {
    if c.ParentDir? {
      var done := front + Names(at);
      assert done[|done| - 1] == Names(at)[|at| - 1];
      assert Names(at)[..|at| - 1] == Names(at[..|at| - 1]);
      assert done[..|done| - 1] == front + Names(at)[..|at| - 1];
    } else if c.Normal? {
      assert Names(at + [c.name]) == Names(at) + [c];
    }
  }

  /** A path that never climbs above its start normalizes to the names of its plain walk. */
  lemma {:induction false} NeverClimbing(cs: seq<Component>)
    requires Raw(cs) && Climb(cs) == 0
    ensures FoldAll(cs) == (if Rooted(cs) then [RootDir] else []) + Names(Walk([], cs))
    ensures |Walk([], cs)| == Height(cs)
    decreases |cs|
  {
    if cs != [] {
      var before, c := cs[..|cs| - 1], cs[|cs| - 1];
      NeverClimbing(before);
      if c.RootDir? {
        assert before == [] && FoldAll(before) == [];
        assert Names([]) == [];
      } else {
        FoldOfNames(if Rooted(cs) then [RootDir] else [], Walk([], before), c);
        assert before == [] ==> FoldAll(before) == [] && Names([]) == [] && !Rooted(cs);
      }
    }
  }

  lemma NormalizationIsThePlainWalk(path: string)
    requires Climb(Components(path)) == 0
    ensures Normalized(path) == (if Absolute(path) then [RootDir] else []) + Names(Walk([], Components(path)))
  {
    ComponentsAreProper(path);
    NeverClimbing(Components(path));
  }

  /** Climbing twice is normalized to staying. */
  lemma TwoParentsVanish()
    ensures Identity("../..") == "" && Walk(["a", "b"], Components("../..")) == []
  {
    var cs := [ParentDir, ParentDir];
    SplitWithoutSlash("..");
    assert ".." + "/" + ".." == "../..";
    ComponentsAtSlash("..", "..");
    assert Components("../..") == cs;
    TwoParents(cs);
  }

  lemma TwoParents(cs: seq<Component>)
    requires cs == [ParentDir, ParentDir]
    ensures FoldAll(cs) == [] && Walk(["a", "b"], cs) == []
  {
    assert cs[..1] == [ParentDir] && [ParentDir][..0] == [];
    assert Walk(["a", "b"], [ParentDir]) == ["a"];
    assert FoldAll([ParentDir]) == [ParentDir];
  }
}
