/**
  POSIX paths as strings and as components, as `std::path` splits and builds them:
  what `components`, `push` and `pop` do, and that rendering components and splitting
  them again is the identity.
*/
module PathComponents {
  import opened Options

  datatype Component = RootDir | CurDir | ParentDir | Normal(name: string)

  function Text(c: Component): string {
    match c
    case RootDir => "/"
    case CurDir => "."
    case ParentDir => ".."
    case Normal(name) => name
  }

  // ---- splitting ----

  function Split(s: string): (parts: seq<string>)
    ensures |parts| > 0
  {
    if s == "" then [""]
    else
      var rest := Split(s[1..]);
      if s[0] == '/' then [""] + rest else [[s[0]] + rest[0]] + rest[1..]
  }

  /** Empty parts and dots name nothing. */
  function Body(parts: seq<string>): seq<Component> {
    if parts == [] then []
    else
      var head := parts[0];
      (if head == "" || head == "." then [] else if head == ".." then [ParentDir] else [Normal(head)]) + Body(parts[1..])
  }

  predicate Absolute(s: string) {
    s != "" && s[0] == '/'
  }

  /** `Path::components`: a dot is kept only where a relative path starts with it. */
  function Components(s: string): seq<Component> {
    (if Absolute(s) then [RootDir] else if Split(s)[0] == "." then [CurDir] else []) + Body(Split(s))
  }

  // ---- building ----

  predicate EndsInSlash(s: string) {
    s != "" && s[|s| - 1] == '/'
  }

  /** `PathBuf::push` and `Path::join`. */
  function Push(buffer: string, text: string): string {
    if Absolute(text) then text
    else if buffer == "" || EndsInSlash(buffer) then buffer + text
    else buffer + "/" + text
  }

  function LastSlash(s: string): (i: int)
    ensures -1 <= i < |s|
  {
    if s == "" then -1 else if EndsInSlash(s) then |s| - 1 else LastSlash(s[..|s| - 1])
  }

  /** `PathBuf::pop` of a buffer without doubled or trailing separators: nothing is left to pop of the
      empty path and of the root. */
  function Pop(buffer: string): Option<string> {
    if buffer == "" || buffer == "/" then None
    else
      var i := LastSlash(buffer);
      Some(if i < 0 then "" else if i == 0 then "/" else buffer[..i])
  }

  function Render(cs: seq<Component>): string {
    if cs == [] then "" else Push(Render(cs[..|cs| - 1]), Text(cs[|cs| - 1]))
  }

  predicate ValidName(name: string) {
    name != "" && name != "." && name != ".." && '/' !in name
  }

  /** Components that a path without dots can have. */
  ghost predicate Proper(cs: seq<Component>) {
    forall i | 0 <= i < |cs| ::
      && !cs[i].CurDir?
      && (cs[i].RootDir? ==> i == 0)
      && (cs[i].Normal? ==> ValidName(cs[i].name))
  }

  // ---- splitting what was built ----

  lemma {:induction false} SplitAtSlash(x: string, y: string)
    ensures Split(x + "/" + y) == Split(x) + Split(y)
  {
    if x == "" {
      assert (x + "/" + y)[1..] == y;
    } else {
      assert (x + "/" + y)[1..] == x[1..] + "/" + y;
      SplitAtSlash(x[1..], y);
    }
  }

  lemma {:induction false} SplitWithoutSlash(s: string)
    requires '/' !in s
    ensures Split(s) == [s]
  {
    if s != "" {
      assert s[0] in s;
      assert forall c | c in s[1..] :: c in s;
      SplitWithoutSlash(s[1..]);
      assert [s[0]] + s[1..] == s;
    }
  }

  lemma {:induction false} PartsHaveNoSlash(s: string)
    ensures forall i | 0 <= i < |Split(s)| :: '/' !in Split(s)[i]
  {
    if s != "" { PartsHaveNoSlash(s[1..]); }
  }

  lemma {:induction false} BodyOfConcat(a: seq<string>, b: seq<string>)
    ensures Body(a + b) == Body(a) + Body(b)
  {
    if a == [] {
      assert a + b == b;
    } else {
      assert (a + b)[1..] == a[1..] + b;
      BodyOfConcat(a[1..], b);
    }
  }

  /** What follows a separator adds its own parts; only a path's beginning is special. */
  lemma ComponentsAtSlash(x: string, y: string)
    requires x != ""
    ensures Components(x + "/" + y) == Components(x) + Body(Split(y))
  {
    SplitAtSlash(x, y);
    BodyOfConcat(Split(x), Split(y));
  }

  lemma ComponentsOfRooted(y: string)
    ensures Components("/" + y) == [RootDir] + Body(Split(y))
  {
    SplitAtSlash("", y);
    assert "" + "/" + y == "/" + y;
    assert Split("") + Split(y) == [""] + Split(y);
    assert ([""] + Split(y))[1..] == Split(y);
  }

  lemma NothingAfterSlash()
    ensures Body(Split("")) == []
  {
  }

  lemma RootAlone()
    ensures Components("/") == [RootDir]
  {
    ComponentsOfRooted("");
    NothingAfterSlash();
    assert "/" + "" == "/";
  }

  /** One trailing separator makes no difference. */
  lemma TrailingSlash(z: string)
    requires z != ""
    ensures Components(z + "/") == Components(z)
  {
    ComponentsAtSlash(z, "");
    NothingAfterSlash();
    assert z + "/" + "" == z + "/";
  }

  /** Joining a path with a relative one puts the parts of the second after the first. */
  lemma ComponentsOfJoin(x: string, y: string)
    requires x != "" && !Absolute(y)
    ensures Components(Push(x, y)) == Components(x) + Body(Split(y))
  {
    if x == "/" {
      RootAlone();
      ComponentsOfRooted(y);
    } else if EndsInSlash(x) {
      var z := WithoutLast(x);
      TrailingSlash(z);
      ComponentsAtSlash(z, y);
    } else {
      ComponentsAtSlash(x, y);
    }
  }

  lemma WithoutLast(x: string) returns (z: string)
    requires EndsInSlash(x)
    ensures x == z + "/" && (x != "/" ==> z != "")
  {
    z := x[..|x| - 1];
  }

  lemma {:induction false} BodyIsProper(parts: seq<string>)
    requires forall i | 0 <= i < |parts| :: '/' !in parts[i]
    ensures forall i | 0 <= i < |Body(parts)| ::
              Body(parts)[i].ParentDir? || (Body(parts)[i].Normal? && ValidName(Body(parts)[i].name))
  {
    if parts != [] { BodyIsProper(parts[1..]); }
  }

  /** Only the first component can be the root or a dot. */
  lemma ComponentsAreProper(s: string)
    ensures forall i | 0 <= i < |Components(s)| ::
              var c := Components(s)[i];
              && (c.RootDir? || c.CurDir? ==> i == 0)
              && (c.Normal? ==> ValidName(c.name))
    ensures Absolute(s) <==> Components(s) != [] && Components(s)[0].RootDir?
  {
    PartsHaveNoSlash(s);
    BodyIsProper(Split(s));
  }

  lemma ProperPrefix(cs: seq<Component>, n: nat)
    requires Proper(cs) && n <= |cs|
    ensures Proper(cs[..n])
  {
  }

  /** A rendered path ends in a separator only if it is the root. */
  lemma RenderEnds(cs: seq<Component>)
    requires Proper(cs) && cs != []
    ensures Render(cs) != "" && (EndsInSlash(Render(cs)) <==> cs == [RootDir])
    ensures Absolute(Render(cs)) <==> cs[0].RootDir?
    decreases |cs|
  {
    var last := |cs| - 1;
    var t := Text(cs[last]);
    if last == 0 {
      assert cs == [cs[0]];
      assert cs[..0] == [];
    } else {
      ProperPrefix(cs, last);
      RenderEnds(cs[..last]);
      assert t != "" && t[|t| - 1] != '/' && t[0] != '/';
    }
  }

  lemma BodyOfName(c: Component)
    requires c.ParentDir? || (c.Normal? && ValidName(c.name))
    ensures '/' !in Text(c) && Body(Split(Text(c))) == [c]
  {
    SplitWithoutSlash(Text(c));
  }

  lemma RenderThenSplitOne(c: Component)
    requires Proper([c])
    ensures Components(Render([c])) == [c]
  {
    assert [c][0] == c && [c][..0] == [];
    assert Render([c]) == Text(c);
    if c.RootDir? {
      ComponentsOfRooted("");
      NothingAfterSlash();
      assert "/" + "" == "/";
    } else {
      BodyOfName(c);
      SplitWithoutSlash(Text(c));
      assert Text(c)[0] in Text(c);
    }
  }

  /** Splitting what was rendered gives the components back. */
  lemma {:induction false} RenderThenSplit(cs: seq<Component>)
    requires Proper(cs)
    ensures Components(Render(cs)) == cs
    decreases |cs|
  {
    if cs != [] {
      var last := |cs| - 1;
      var c := cs[last];
      ProperPrefix(cs, last);
      assert cs == cs[..last] + [c];
      if last == 0 {
        assert cs[..0] == [];
        RenderThenSplitOne(c);
      } else {
        RenderThenSplit(cs[..last]);
        RenderEnds(cs[..last]);
        BodyOfName(c);
        assert Text(c)[0] in Text(c);
        ComponentsOfJoin(Render(cs[..last]), Text(c));
      }
    }
  }

  lemma {:induction false} LastSlashOfJoin(x: string, name: string)
    requires '/' !in name
    ensures LastSlash(x + "/" + name) == |x|
  {
    if name == "" {
      assert x + "/" + name == x + "/";
    } else {
      var s := x + "/" + name;
      assert name[|name| - 1] in name;
      assert s[..|s| - 1] == x + "/" + name[..|name| - 1];
      LastSlashOfJoin(x, name[..|name| - 1]);
    }
  }

  lemma {:induction false} NoLastSlash(name: string)
    requires '/' !in name
    ensures LastSlash(name) == -1
  {
    if name != "" {
      assert name[|name| - 1] in name;
      NoLastSlash(name[..|name| - 1]);
    }
  }

  lemma PopOfJoin(x: string, name: string)
    requires x != "" && name != "" && '/' !in name && (EndsInSlash(x) ==> x == "/")
    ensures Pop(Push(x, name)) == Some(x)
  {
    assert name[0] in name;
    if x == "/" {
      assert "/" + name == "" + "/" + name;
      LastSlashOfJoin("", name);
    } else {
      LastSlashOfJoin(x, name);
      assert (x + "/" + name)[..|x|] == x;
    }
  }

  lemma PopOfOne(name: string)
    requires name != "" && '/' !in name
    ensures Pop(name) == Some("")
  {
    assert name[0] in name;
    NoLastSlash(name);
  }

  lemma RenderOfRoot()
    ensures Render([RootDir]) == "/"
  {
    assert [RootDir][..0] == [];
    assert Render([]) == "";
  }

  /** What is left can only end in a separator if it is the root. */
  lemma RenderedEndIsRoot(cs: seq<Component>)
    requires Proper(cs) && cs != []
    ensures Render(cs) != "" && (EndsInSlash(Render(cs)) ==> Render(cs) == "/")
  {
    RenderEnds(cs);
    RenderOfRoot();
  }

  /** Popping a rendered path drops its last component. */
  lemma PopOfRender(cs: seq<Component>, last: nat)
    requires Proper(cs) && |cs| == last + 1 && !cs[last].RootDir?
    ensures Pop(Render(cs)) == Some(Render(cs[..last]))
  {
    BodyOfName(cs[last]);
    if last == 0 {
      assert cs[..last] == [] && Render(cs[..last]) == "";
      assert Text(cs[last])[0] in Text(cs[last]);
      assert Render(cs) == "" + Text(cs[last]) == Text(cs[last]);
      PopOfOne(Text(cs[last]));
    } else {
      ProperPrefix(cs, last);
      RenderedEndIsRoot(cs[..last]);
      PopOfJoin(Render(cs[..last]), Text(cs[last]));
    }
  }

  /** The empty path and the root have nothing to pop. */
  lemma NothingToPop(cs: seq<Component>)
    requires Proper(cs) && (cs == [] || cs[|cs| - 1].RootDir?)
    ensures Pop(Render(cs)) == None
  {
    if cs != [] {
      assert cs == [RootDir];
      RenderOfRoot();
    }
  }
}
