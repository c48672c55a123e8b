/**
  What a recursive copy leaves behind when listings may break off and links are read
  through, and when that is the whole original.
*/
module Copies {
  import opened Options
  import opened FileTrees
  import opened FileSystems

  /** A listing names every step of the way from `p` down along `t`. */
  ghost predicate Shown(cut: map<Path, set<string>>, p: Path, t: Path) {
    forall k | 0 <= k < |t| :: Listed(cut, p + t[..k], t[k])
  }

  /** What a copied node becomes: of a link a file with the content it led to. */
  predicate Mirrors(ns: Nodes, p: Path, copy: Node)
    requires p in ns
  {
    if ns[p].Link? then copy.File? && (ReadThrough(ns, p).Some? ==> copy.data == ReadThrough(ns, p).value)
    else copy == ns[p]
  }

  /** Every link a copy meets leads to a file. */
  ghost predicate LinksReadable(cut: map<Path, set<string>>, ns: Nodes, p: Path) {
    forall t: Path :: p + t in ns && Shown(cut, p, t) && ns[p + t].Link? ==> ReadThrough(ns, p + t).Some?
  }

  /** At `q` is what was shown of the tree at `p`, node by node. */
  ghost predicate Copied(before: Nodes, cut: map<Path, set<string>>, p: Path, after: Nodes, q: Path) {
    forall t: Path ::
      && (q + t in after <==> p + t in before && Shown(cut, p, t))
      && (q + t in after ==> Mirrors(before, p + t, after[q + t]))
  }

  /** The same, as far as the entries `done` have been copied. */
  ghost predicate PartlyCopied(before: Nodes, cut: map<Path, set<string>>, p: Path, after: Nodes, q: Path, done: set<string>) {
    forall t: Path ::
      && (q + t in after <==> t == [] || (t[0] in done && p + t in before && Shown(cut, p, t)))
      && (q + t in after && t != [] ==> Mirrors(before, p + t, after[q + t]))
  }

  /** Every listing is complete and nothing is a link. */
  ghost predicate Faithful(cut: map<Path, set<string>>, ns: Nodes, p: Path) {
    forall t: Path :: p + t in ns ==> Shown(cut, p, t) && !ns[p + t].Link?
  }

  /** The copy is the original exactly when every listing was complete and nothing was a link. */
  lemma CopyIsTheOriginal(before: Nodes, cut: map<Path, set<string>>, p: Path, after: Nodes, q: Path)
    requires Copied(before, cut, p, after, q)
    ensures SameTree(before, p, after, q) <==> Faithful(cut, before, p)
  {
    if SameTree(before, p, after, q) {
      forall t: Path | p + t in before ensures Shown(cut, p, t) && !before[p + t].Link? {
        assert q + t in after;
      }
    }
  }

  /** What a listing left out is in neither place once the original is a link. */
  lemma UnlistedIsLost(before: Nodes, cut: map<Path, set<string>>, p: Path, after: Nodes, q: Path, t: Path)
    requires Copied(before, cut, p, after, q) && Tree(after) && p in after && after[p].Link?
    requires p + t in before && !Shown(cut, p, t)
    ensures p + t !in after && q + t !in after
  {
    assert t != [];
    if p + t in after { AncestorsAreDirs(after, p, p + t); }
  }

  /** A skill of two files whose listing breaks off after the first: nothing that copies it has both. */
  lemma CutListingDropsAFile(after: Nodes, q: Path)
    ensures var before := map[[] := Dir, ["s"] := Dir, ["s", "a"] := File("1"), ["s", "b"] := File("2")];
            var cut := map[["s"] := {"a"}];
            && Tree(before)
            && (Copied(before, cut, ["s"], after, q) ==> q + ["a"] in after && q + ["b"] !in after)
  {
    var before := map[[] := Dir, ["s"] := Dir, ["s", "a"] := File("1"), ["s", "b"] := File("2")];
    var cut := map[["s"] := {"a"}];
    assert Parent(["s"]) == [] && Parent(["s", "a"]) == ["s"] && Parent(["s", "b"]) == ["s"];
    var a, b := ["a"], ["b"];
    assert ["s"] + a == ["s", "a"] && ["s"] + b == ["s", "b"];
    assert ["s"] + b[..0] == ["s"] && !Listed(cut, ["s"] + b[..0], b[0]);
    assert ["s"] + a[..0] == ["s"];
    assert Shown(cut, ["s"], a);
    assert !Shown(cut, ["s"], b);
  }

  // ---- one more entry ----

  lemma ShownBelow(cut: map<Path, set<string>>, p: Path, e: string, t: Path)
    ensures Shown(cut, p, [e] + t) <==> Listed(cut, p, e) && Shown(cut, p + [e], t)
  {
    var u := [e] + t;
    assert u[0] == e && p + u[..0] == p;
    forall k | 0 <= k < |t| ensures p + u[..k + 1] == (p + [e]) + t[..k] && u[k + 1] == t[k] {
      assert u[..k + 1] == [e] + t[..k];
    }
    if Shown(cut, p, u) {
      assert Listed(cut, p + u[..0], u[0]);
      forall k | 0 <= k < |t| ensures Listed(cut, (p + [e]) + t[..k], t[k]) {
        assert Listed(cut, p + u[..k + 1], u[k + 1]);
      }
    }
    if Listed(cut, p, e) && Shown(cut, p + [e], t) {
      forall k | 0 <= k < |u| ensures Listed(cut, p + u[..k], u[k]) {
        if k > 0 { assert Listed(cut, (p + [e]) + t[..k - 1], t[k - 1]); }
      }
    }
  }

  /** What was read later is what could be read before, when nodes were only added. */
  lemma ReadEarlier(before: Nodes, mid: Nodes, r: Path)
    requires Adds(before, mid) && ReadThrough(before, r).Some?
    ensures ReadThrough(mid, r) == ReadThrough(before, r)
  {
    AddsKeepsCanonical(before, mid, r, MAX_LINKS);
  }

  lemma MirrorsEarlier(before: Nodes, mid: Nodes, r: Path, copy: Node)
    requires Adds(before, mid) && r in before && Mirrors(mid, r, copy)
    ensures Mirrors(before, r, copy)
  {
    if ReadThrough(before, r).Some? { ReadEarlier(before, mid, r); }
  }

  /** The links below an entry are among those of the directory. */
  lemma LinksReadableBelow(cut: map<Path, set<string>>, before: Nodes, mid: Nodes, p: Path, e: string)
    requires LinksReadable(cut, before, p) && Adds(before, mid) && SameTree(before, p, mid, p) && Listed(cut, p, e)
    ensures LinksReadable(cut, mid, p + [e])
  {
    forall t: Path | p + [e] + t in mid && Shown(cut, p + [e], t) && mid[p + [e] + t].Link?
      ensures ReadThrough(mid, p + [e] + t).Some?
    {
      ShownBelow(cut, p, e, t);
      assert p + ([e] + t) == p + [e] + t;
      ReadEarlier(before, mid, p + [e] + t);
    }
  }

  lemma CopiedEntry(before: Nodes, cut: map<Path, set<string>>, p: Path, mid: Nodes, after: Nodes, q: Path, e: string, t: Path)
    requires Adds(before, mid)
    requires SameTree(before, p, mid, p) && Copied(mid, cut, p + [e], after, q + [e]) && Listed(cut, p, e)
    ensures q + ([e] + t) in after <==> p + ([e] + t) in before && Shown(cut, p, [e] + t)
    ensures q + ([e] + t) in after ==> Mirrors(before, p + ([e] + t), after[q + ([e] + t)])
  {
    ShownBelow(cut, p, e, t);
    assert q + ([e] + t) == (q + [e]) + t && p + ([e] + t) == (p + [e]) + t;
    if q + ([e] + t) in after { MirrorsEarlier(before, mid, p + ([e] + t), after[q + ([e] + t)]); }
  }

  lemma OtherEntry(mid: Nodes, after: Nodes, q: Path, e: string, t: Path)
    requires Touches(mid, after, q + [e]) && (t == [] || t[0] != e) && q in mid
    ensures q + t in after <==> q + t in mid
    ensures q + t in mid ==> after[q + t] == mid[q + t]
  {
    if t == [] {
      assert q + t == q;
    } else {
      assert (q + t)[|q|] == t[0] && (q + [e])[|q|] == e;
    }
  }

  lemma CopiesOneMore(
    before: Nodes, cut: map<Path, set<string>>, p: Path, mid: Nodes, after: Nodes, q: Path, done: set<string>, e: string)
    requires PartlyCopied(before, cut, p, mid, q, done) && SameTree(before, p, mid, p)
    requires Copied(mid, cut, p + [e], after, q + [e]) && Touches(mid, after, q + [e])
    requires e !in done && Listed(cut, p, e) && q in mid && Adds(before, mid)
    ensures PartlyCopied(before, cut, p, after, q, done + {e})
  {
    forall t: Path
      ensures q + t in after <==> t == [] || (t[0] in done + {e} && p + t in before && Shown(cut, p, t))
      ensures q + t in after && t != [] ==> Mirrors(before, p + t, after[q + t])
    {
      if t != [] && t[0] == e {
        assert t == [e] + t[1..];
        CopiedEntry(before, cut, p, mid, after, q, e, t[1..]);
      } else {
        OtherEntry(mid, after, q, e, t);
        assert q + [] == q;
      }
    }
  }

  lemma AllEntriesCopied(before: Nodes, cut: map<Path, set<string>>, p: Path, after: Nodes, q: Path)
    requires Tree(before) && p in before && before[p] == Dir && q in after && after[q] == Dir
    requires PartlyCopied(before, cut, p, after, q, Listing(before, cut, p))
    ensures Copied(before, cut, p, after, q)
  {
    forall t: Path
      ensures q + t in after <==> p + t in before && Shown(cut, p, t)
      ensures q + t in after ==> Mirrors(before, p + t, after[q + t])
    {
      if t == [] {
        assert p + t == p && q + t == q;
      } else if p + t in before && Shown(cut, p, t) {
        EntryIsListed(before, cut, p, t);
      }
    }
  }

  lemma EntryIsListed(ns: Nodes, cut: map<Path, set<string>>, p: Path, t: Path)
    requires Tree(ns) && t != [] && p + t in ns && Shown(cut, p, t)
    ensures t[0] in Listing(ns, cut, p)
  {
    var child := p + [t[0]];
    assert p + t[..0] == p && Listed(cut, p + t[..0], t[0]);
    if |t| > 1 {
      assert p + t == child + t[1..];
      AncestorsAreDirs(ns, child, p + t);
    } else {
      assert t == [t[0]];
    }
    assert child in ns && child[|p|] == t[0];
  }

  /** A copied file. */
  lemma FileCopied(before: Nodes, cut: map<Path, set<string>>, p: Path, mid: Nodes, after: Nodes, q: Path)
    requires Tree(before) && p in before && before[p] != Dir && Vacant(mid, q)
    requires q in after && Mirrors(before, p, after[q]) && after == mid[q := after[q]]
    ensures Copied(before, cut, p, after, q)
  {
    forall t: Path
      ensures q + t in after <==> p + t in before && Shown(cut, p, t)
      ensures q + t in after ==> Mirrors(before, p + t, after[q + t])
    {
      if t == [] {
        assert p + t == p && q + t == q;
      } else {
        assert q <= q + t && q + t != q;
        if p + t in before {
          assert p < p + t;
          AncestorsAreDirs(before, p, p + t);
        }
      }
    }
  }

  lemma NothingCopiedYet(before: Nodes, cut: map<Path, set<string>>, p: Path, after: Nodes, q: Path)
    requires forall r | r in after && q <= r :: r == q
    requires q in after
    ensures PartlyCopied(before, cut, p, after, q, {})
  {
    forall t: Path ensures q + t in after <==> t == [] {
      if t == [] { assert q + t == q; } else { assert q <= q + t && q + t != q; }
    }
  }
}
