/**
 Live parents.  A live folder's path need not continue its parent's once the two are cut off from the
 root.  What remains true is that both begin with the chains of the same placed folders, so every prefix
 test takes a folder exactly if it takes, or is, the parent.
 */
module Parents {
  import opened Wrappers
  import opened Paths
  import opened Tables
  import opened Tree
  import opened Move
  import opened Delete

  /** The parent is live, and the same placed folders lead to both. */
  ghost predicate Follows(fs: Folders, x: nat)
    requires Live(fs, x) && fs[x].parent.Some?
  {
    && Live(fs, fs[x].parent.value)
    && forall g | Rooted(fs, g) :: Chain(fs, g) <= Chain(fs, fs[x].parent.value) <==> Chain(fs, g) <= Ids(fs, x)
  }

  ghost predicate Parented(fs: Folders) {
    forall x {:trigger Follows(fs, x)} | Live(fs, x) && fs[x].parent.Some? :: Follows(fs, x)
  }

  lemma FollowsAt(fs: Folders, x: nat, g: nat)
    requires Parented(fs) && Live(fs, x) && fs[x].parent.Some? && Rooted(fs, g)
    ensures Live(fs, fs[x].parent.value)
    ensures Chain(fs, g) <= Chain(fs, fs[x].parent.value) <==> Chain(fs, g) <= Ids(fs, x)
  {
    assert Follows(fs, x);
  }

  lemma RootedFollows(fs: Folders, x: nat)
    requires Rooted(fs, x) && fs[x].parent.Some?
    ensures Follows(fs, x)
  {
    ParentIds(fs, x);
  }

  /** A chain is a prefix of another one, or of its ids, or both are of the same folder. */
  lemma ChainCases(fs: Folders, g: nat, p: nat)
    requires Rooted(fs, g) && p in fs
    ensures Chain(fs, g) <= Ids(fs, p) ==> Chain(fs, g) <= Chain(fs, p)
    ensures Chain(fs, g) <= Chain(fs, p) ==> Chain(fs, g) <= Ids(fs, p) || p == g
  {
    SnocPrefix(Ids(fs, g), g, Ids(fs, p), p);
  }

  lemma OutsideIds(f: nat, ids: seq<nat>, y: nat)
    requires f != y
    ensures f in ids + [y] <==> f in ids
  {
  }

  lemma SnocPrefix(a: seq<nat>, g: nat, b: seq<nat>, p: nat)
    ensures a + [g] <= b ==> a + [g] <= b + [p]
    ensures a + [g] <= b + [p] ==> a + [g] <= b || (g == p && a == b)
  {
    if a + [g] <= b + [p] && |a| == |b| {
      assert (a + [g])[|a|] == (b + [p])[|b|];
      assert a == (a + [g])[..|a|] && b == (b + [p])[..|b|];
    } else if a + [g] <= b + [p] {
      assert (b + [p])[..|a| + 1] == b[..|a| + 1];
    }
  }

  /**
   For every live folder, cut off or not: a prefix test takes it exactly if its parent is f or is taken.
   If it reaches the root, that is, exactly if f is a proper ancestor by parent pointers.
   */
  lemma PrefixFollowsParent(fs: Folders, f: nat, y: nat)
    requires Indexed(fs) && Parented(fs) && Rooted(fs, f) && Live(fs, y)
    ensures forall ids | Ancestry(fs, ids, y) :: ChildPath(fs, f) <= fs[y].path <==> f in ids
    ensures ChildPath(fs, f) <= fs[y].path <==>
              fs[y].parent.Some?
              && (fs[y].parent.value == f
                  || (fs[y].parent.value in fs && ChildPath(fs, f) <= fs[fs[y].parent.value].path))
  {
    forall ids | Ancestry(fs, ids, y)
      ensures ChildPath(fs, f) <= fs[y].path <==> f in ids
    {
      PrefixSelectsDescendants(fs, f, y, ids);
    }
    PrefixByParent(fs, f, y);
  }

  lemma PrefixByParent(fs: Folders, f: nat, y: nat)
    requires Indexed(fs) && Parented(fs) && Rooted(fs, f) && Live(fs, y)
    ensures ChildPath(fs, f) <= fs[y].path <==>
              fs[y].parent.Some?
              && (fs[y].parent.value == f
                  || (fs[y].parent.value in fs && ChildPath(fs, f) <= fs[fs[y].parent.value].path))
  {
    assert RowOk(fs, y);
    PrefixMatches(fs, f, Ids(fs, y));
    match fs[y].parent
    case None =>
      assert Ids(fs, y) == [];
    case Some(p) =>
      FollowsAt(fs, y, f);
      assert RowOk(fs, p);
      PrefixMatches(fs, f, Ids(fs, p));
      ChainCases(fs, f, p);
  }

  /** A live folder without a parent is the root; any other one has a live parent. */
  lemma LiveParent(fs: Folders, x: nat)
    requires Indexed(fs) && Parented(fs) && Live(fs, x)
    ensures fs[x].parent.None? <==> x == ROOT && Rooted(fs, x) && Ids(fs, x) == []
    ensures fs[x].parent.Some? ==> Live(fs, fs[x].parent.value)
  {
    assert RowOk(fs, x);
    if fs[x].parent.Some? {
      assert Follows(fs, x);
    }
  }

  // ----- rows that keep path and parent -----

  lemma {:induction false} ParentedFrame(fs: Folders, fs': Folders)
    requires Parented(fs) && fs'.Keys == fs.Keys
    requires forall y | y in fs ::
               fs'[y].path == fs[y].path && fs'[y].parent == fs[y].parent && fs'[y].deletedAt == fs[y].deletedAt
    requires forall y | Rooted(fs', y) :: Rooted(fs, y)
    ensures Parented(fs')
  {
    forall x | Live(fs', x) && fs'[x].parent.Some?
      ensures Follows(fs', x)
    {
      assert Follows(fs, x);
    }
  }

  // ----- create -----

  lemma {:induction false} NotInIds(fs: Folders, n: nat, g: seq<nat>, ids: seq<nat>)
    requires n !in fs && n in g && forall k | 0 <= k < |ids| :: ids[k] in fs
    ensures !(g <= ids)
  {
    var k :| 0 <= k < |g| && g[k] == n;
    assert k < |ids| ==> ids[k] != g[k];
  }

  lemma {:induction false} FollowsAfterCreate(fs: Folders, fs': Folders, n: nat, x: nat)
    requires Indexed(fs) && Parented(fs) && n !in fs && Live(fs, x) && fs[x].parent.Some?
    requires n in fs' && fs' == fs[n := fs'[n]]
    requires forall y | y != n :: Rooted(fs', y) <==> Rooted(fs, y)
    ensures Live(fs', x) && fs'[x].parent.Some? && Follows(fs', x)
  {
    assert Follows(fs, x);
    var p := fs[x].parent.value;
    assert RowOk(fs, x) && RowOk(fs, p);
    AllInTable(fs, Ids(fs, p), p);
    forall g | Rooted(fs', g)
      ensures Chain(fs', g) <= Chain(fs', p) <==> Chain(fs', g) <= Ids(fs', x)
    {
      if g == n {
        assert n in Chain(fs', n);
        NotInIds(fs, n, Chain(fs', n), Chain(fs, p));
        NotInIds(fs, n, Chain(fs', n), Ids(fs, x));
      }
    }
  }

  lemma CreateKeepsParented(fs: Folders, n: nat, name: string, p: nat, inherits: bool, retention: nat)
    requires Indexed(fs) && Parented(fs) && n !in fs && Rooted(fs, p)
    ensures Parented(Created(fs, n, name, p, ChildPath(fs, p), inherits, retention))
  {
    var fs' := Created(fs, n, name, p, ChildPath(fs, p), inherits, retention);
    CreateKeepsIndexed(fs, n, name, p, inherits, retention);
    forall x | Live(fs', x) && fs'[x].parent.Some?
      ensures Follows(fs', x)
    {
      if x == n {
        PlacedIds(fs', Chain(fs, p), n);
        RootedFollows(fs', n);
      } else {
        FollowsAfterCreate(fs, fs', n, x);
      }
    }
  }

  // ----- delete -----

  lemma FollowsAfterDelete(fs: Folders, f: nat, now: nat, x: nat)
    requires Indexed(fs) && Parented(fs) && Rooted(fs, f)
    requires Live(Deleted(fs, f, now), x) && fs[x].parent.Some?
    ensures Follows(Deleted(fs, f, now), x)
  {
    var fs', p := Deleted(fs, f, now), fs[x].parent.value;
    DeletedHits(fs, f, now, x);
    FollowsAt(fs, x, f);
    ChainCases(fs, f, p);
    DeletedHits(fs, f, now, p);
    DeleteKeepsIndexed(fs, f, now);
    forall g | Rooted(fs', g)
      ensures Chain(fs', g) <= Chain(fs', p) <==> Chain(fs', g) <= Ids(fs', x)
    {
      FollowsAt(fs, x, g);
    }
  }

  lemma DeleteKeepsParented(fs: Folders, f: nat, now: nat)
    requires Indexed(fs) && Parented(fs) && Rooted(fs, f)
    ensures Parented(Deleted(fs, f, now))
  {
    var fs' := Deleted(fs, f, now);
    forall x | Live(fs', x) && fs'[x].parent.Some?
      ensures Follows(fs', x)
    {
      FollowsAfterDelete(fs, f, now, x);
    }
  }

  /**
   Any live folder but f, cut off or not, is deleted exactly if its parent is deleted with f.  If it
   reaches the root, that is, exactly if f is an ancestor by parent pointers.
   */
  lemma DeleteFollowsParent(fs: Folders, f: nat, now: nat, y: nat)
    requires Indexed(fs) && Parented(fs) && Rooted(fs, f) && Live(fs, y) && y != f
    ensures Deleted(fs, f, now)[y] ==
              if fs[y].parent.Some? && !Live(Deleted(fs, f, now), fs[y].parent.value)
              then fs[y].(deletedAt := Some(now)) else fs[y]
    ensures forall ids | Ancestry(fs, ids, y) :: !Live(Deleted(fs, f, now), y) <==> f in ids
  {
    PrefixFollowsParent(fs, f, y);
    LiveParent(fs, y);
    forall ids | Ancestry(fs, ids, y)
      ensures !Live(Deleted(fs, f, now), y) <==> f in ids
    {
      DeleteMarksSubtree(fs, f, now, ids, y);
      OutsideIds(f, ids, y);
    }
  }

  /** Any live file of a live folder is deleted exactly with its folder, whether that is f, below f or cut off. */
  lemma DeleteFollowsFolder(fs: Folders, files: Files, f: nat, now: nat, i: nat)
    requires Indexed(fs) && Rooted(fs, f) && LiveFile(files, i) && Live(fs, files[i].folder)
    ensures forall ids | Ancestry(fs, ids, files[i].folder) ::
              !LiveFile(FilesDeleted(fs, files, f, now), i) <==> f in ids + [files[i].folder]
    ensures FilesDeleted(fs, files, f, now)[i] ==
              if Live(Deleted(fs, f, now), files[i].folder) then files[i] else files[i].(deletedAt := Some(now))
  {
    forall ids | Ancestry(fs, ids, files[i].folder)
      ensures !LiveFile(FilesDeleted(fs, files, f, now), i) <==> f in ids + [files[i].folder]
    {
      DeleteMarksFiles(fs, files, f, now, ids, i);
    }
  }

  // ----- moves -----

  /** A list that f is not in can only be a prefix of what stands before f. */
  lemma PrefixBefore(h: seq<nat>, d: seq<nat>, f: nat, s: seq<nat>)
    requires d + [f] <= s && f !in h
    ensures h <= s <==> h <= d
  {
    assert s[|d|] == f && s[..|d|] == d;
    if h <= s {
      assert |h| <= |d|;
    }
  }

  lemma CancelPrefix(d: seq<nat>, s: seq<nat>, t: seq<nat>)
    ensures d + s <= d + t <==> s <= t
  {
    if d + s <= d + t {
      assert (d + s)[|d|..] == s && (d + t)[|d|..] == t;
      assert s == (d + t)[..|d| + |s|][|d|..] == t[..|s|];
    }
  }

  lemma GraftPrefix(c: seq<nat>, d: seq<nat>, h: seq<nat>, a: seq<nat>)
    requires c <= h && (d <= a ==> c <= a)
    ensures Graft(c, d, h) <= Graft(c, d, a) <==> h <= a
  {
    if c <= a {
      assert a == c + a[|c|..] && h == c + h[|c|..];
      CancelPrefix(d, h[|c|..], a[|c|..]);
    }
  }

  /** Grafting two id lists that the same placed folders lead to keeps them so. */
  lemma GraftSame(c: seq<nat>, above: seq<nat>, f: nat, h: seq<nat>, a: seq<nat>, b: seq<nat>)
    requires (c <= a <==> c <= b) && (h <= a <==> h <= b)
    requires above + [f] <= a ==> c <= a
    requires above + [f] <= b ==> c <= b
    requires f in h <==> c <= h
    ensures var d := above + [f];
      Graft(c, d, h) <= Graft(c, d, a) <==> Graft(c, d, h) <= Graft(c, d, b)
  {
    if c <= h {
      GraftPrefix(c, above + [f], h, a);
      GraftPrefix(c, above + [f], h, b);
    } else if c <= a {
      PrefixBefore(h, above, f, Graft(c, above + [f], a));
      PrefixBefore(h, above, f, Graft(c, above + [f], b));
    }
  }

  /** The chain of a placed folder moves as its ids do. */
  lemma MovedChain(fs: Folders, f: nat, q: nat, g: nat)
    requires Indexed(fs) && Rooted(fs, f) && Rooted(fs, q) && !Cyclic(fs, f, q) && Rooted(fs, g)
    ensures g in MovedUnder(fs, f, q)
    ensures Chain(MovedUnder(fs, f, q), g) == Graft(Chain(fs, f), Chain(fs, q) + [f], Chain(fs, g))
    ensures f in Chain(fs, g) <==> Chain(fs, f) <= Chain(fs, g)
  {
    var c, d := Chain(fs, f), Chain(fs, q) + [f];
    MovedRow(fs, f, q, g);
    ChainCases(fs, f, g);
    AncestorPrefix(fs, Ids(fs, f), f, Ids(fs, g), g);
    if g == f {
      MovedTop(fs, f, q);
      assert Graft(c, d, c) == d;
    } else {
      GraftSnoc(c, d, Ids(fs, g), g);
    }
  }

  lemma GraftSnoc(c: seq<nat>, d: seq<nat>, ids: seq<nat>, g: nat)
    requires c <= ids + [g] ==> c <= ids
    ensures Graft(c, d, ids + [g]) == Graft(c, d, ids) + [g]
  {
  }

  /** After a move out of the subtree, for a folder that was cut off before. */
  lemma CutOffFollows(fs: Folders, f: nat, q: nat, x: nat, p: nat, g: nat)
    requires Indexed(fs) && Parented(fs) && Rooted(fs, f) && Rooted(fs, q) && !Cyclic(fs, f, q)
    requires Live(fs, x) && fs[x].parent == Some(p) && p in fs && !Rooted(fs, x) && Rooted(fs, g)
    ensures var fs' := MovedUnder(fs, f, q);
      Chain(fs', g) <= Chain(fs', p) <==> Chain(fs', g) <= Ids(fs', x)
  {
    assert RowOk(fs, x);
    FollowsAt(fs, x, g);
    FollowsAt(fs, x, f);
    ChainCases(fs, g, p);
    ChainCases(fs, f, p);
    MovedRow(fs, f, q, x);
    MovedRow(fs, f, q, p);
    MovedChain(fs, f, q, g);
    Strays(fs, f, q, x);
    Strays(fs, f, q, p);
    GraftSame(Chain(fs, f), Chain(fs, q), f, Chain(fs, g), Ids(fs, p), Ids(fs, x));
    MoveKeepsIndexed(fs, f, q);
    ChainCases(MovedUnder(fs, f, q), g, p);
  }

  lemma Strays(fs: Folders, f: nat, q: nat, x: nat)
    requires Indexed(fs) && Rooted(fs, f) && Rooted(fs, q) && Live(fs, x)
    ensures Chain(fs, q) + [f] <= Ids(fs, x) ==> Chain(fs, f) <= Ids(fs, x)
  {
    if Chain(fs, q) + [f] <= Ids(fs, x) {
      NoStrayRow(fs, f, q, x);
    }
  }

  /** Outside the subtree of a move into itself chains stay, and f is in none of them. */
  lemma CyclicChain(fs: Folders, f: nat, q: nat, g: nat)
    requires Indexed(fs) && Rooted(fs, f) && Rooted(fs, q) && Cyclic(fs, f, q)
    requires Rooted(MovedUnder(fs, f, q), g)
    ensures Rooted(fs, g) && f !in Chain(fs, g) && Chain(MovedUnder(fs, f, q), g) == Chain(fs, g)
  {
    RootedAfterCyclicMove(fs, f, q, g);
    NotInChain(Ids(fs, g), g, f);
    MovedOutside(fs, f, q, Ids(fs, g), g);
    PlacedIds(MovedUnder(fs, f, q), Ids(fs, g), g);
  }

  /** Everything with f in front now begins with the new chain of f. */
  lemma CyclicPrefix(fs: Folders, f: nat, q: nat, y: nat, h: seq<nat>)
    requires Indexed(fs) && Rooted(fs, f) && Rooted(fs, q) && Cyclic(fs, f, q)
    requires Live(fs, y) && (y == f || Chain(fs, f) <= Ids(fs, y)) && f !in h
    ensures var fs' := MovedUnder(fs, f, q);
      && (h <= Ids(fs', y) <==> h <= Chain(fs, q))
      && (h <= Chain(fs', y) <==> h <= Chain(fs, q))
  {
    var ids := Ids(MovedUnder(fs, f, q), y);
    CyclicIds(fs, f, q, y);
    PrefixBefore(h, Chain(fs, q), f, ids);
    assert Chain(fs, q) + [f] <= ids + [y];
    PrefixBefore(h, Chain(fs, q), f, ids + [y]);
  }

  /** The parent of a folder at or below f is at or below f, or is the target. */
  lemma CyclicParent(fs: Folders, f: nat, q: nat, x: nat)
    requires Indexed(fs) && Parented(fs) && Rooted(fs, f) && Rooted(fs, q) && Cyclic(fs, f, q)
    requires Live(fs, x) && (x == f || fs[x].parent.Some?)
    ensures var p := if x == f then q else fs[x].parent.value;
      && Live(fs, p)
      && (x == f || Chain(fs, f) <= Ids(fs, x) <==> p == f || Chain(fs, f) <= Ids(fs, p))
  {
    if x == f {
      CyclicIds(fs, f, q, f);
      ChainCases(fs, f, q);
    } else {
      FollowsAt(fs, x, f);
      ChainCases(fs, f, fs[x].parent.value);
    }
  }

  lemma CyclicFollows(fs: Folders, f: nat, q: nat, x: nat, g: nat)
    requires Indexed(fs) && Parented(fs) && Rooted(fs, f) && Rooted(fs, q) && Cyclic(fs, f, q)
    requires Live(fs, x) && (x == f || fs[x].parent.Some?) && Rooted(MovedUnder(fs, f, q), g)
    ensures var fs', p := MovedUnder(fs, f, q), if x == f then q else fs[x].parent.value;
      p in fs' && (Chain(fs', g) <= Chain(fs', p) <==> Chain(fs', g) <= Ids(fs', x))
  {
    var p := if x == f then q else fs[x].parent.value;
    CyclicParent(fs, f, q, x);
    CyclicChain(fs, f, q, g);
    if x == f || Chain(fs, f) <= Ids(fs, x) {
      CyclicPrefix(fs, f, q, x, Chain(fs, g));
      CyclicPrefix(fs, f, q, p, Chain(fs, g));
    } else {
      MovedRow(fs, f, q, x);
      MovedRow(fs, f, q, p);
      FollowsAt(fs, x, g);
    }
  }

  lemma FollowsAfterMove(fs: Folders, f: nat, q: nat, x: nat)
    requires Indexed(fs) && Parented(fs) && Rooted(fs, f) && Rooted(fs, q)
    requires Live(MovedUnder(fs, f, q), x) && MovedUnder(fs, f, q)[x].parent.Some?
    ensures Follows(MovedUnder(fs, f, q), x)
  {
    var fs' := MovedUnder(fs, f, q);
    if Rooted(fs', x) {
      RootedFollows(fs', x);
    } else if Cyclic(fs, f, q) {
      CyclicParent(fs, f, q, x);
      forall g | Rooted(fs', g)
        ensures Chain(fs', g) <= Chain(fs', fs'[x].parent.value) <==> Chain(fs', g) <= Ids(fs', x)
      {
        CyclicFollows(fs, f, q, x, g);
      }
    } else {
      MoveKeepsIndexed(fs, f, q);
      FollowsAt(fs, x, f);
      forall g | Rooted(fs', g)
        ensures Chain(fs', g) <= Chain(fs', fs'[x].parent.value) <==> Chain(fs', g) <= Ids(fs', x)
      {
        CutOffFollows(fs, f, q, x, fs[x].parent.value, g);
      }
    }
  }

  /** Moves into the own subtree included. */
  lemma MoveKeepsParented(fs: Folders, f: nat, q: nat)
    requires Indexed(fs) && Parented(fs) && Rooted(fs, f) && Rooted(fs, q)
    ensures Parented(MovedUnder(fs, f, q))
  {
    var fs' := MovedUnder(fs, f, q);
    forall x | Live(fs', x) && fs'[x].parent.Some?
      ensures Follows(fs', x)
    {
      FollowsAfterMove(fs, f, q, x);
    }
  }

  lemma RenderSame(a: seq<nat>, b: seq<nat>)
    ensures Render(a) == Render(b) <==> a == b
  {
    if Render(a) == Render(b) {
      RenderInjective(a, b);
    }
  }

  /** A rewritten id list differs, at f and below it, unless the old and the new place are the same. */
  lemma NewIdsDiffer(above: seq<nat>, target: seq<nat>, f: nat, ids: seq<nat>, y: nat)
    requires if y == f then ids == above else above + [f] <= ids
    ensures Graft(above + [f], target + [f], if y == f then target else ids) == ids <==> above == target
  {
    var c, d := above + [f], target + [f];
    if y != f {
      assert ids == c + ids[|c|..];
      CancelTail(target, above, [f]);
      CancelTail(d, c, ids[|c|..]);
    }
  }

  lemma CancelTail(a: seq<nat>, b: seq<nat>, t: seq<nat>)
    ensures a + t == b + t <==> a == b
  {
    if a + t == b + t {
      assert |a| == |b| && a == (a + t)[..|a|] && b == (b + t)[..|a|];
    }
  }

  /** The path of f, and of the rows with the prefix, changes exactly if the move changes f's path. */
  lemma MovedPathChanges(fs: Folders, f: nat, q: nat, y: nat)
    requires Indexed(fs) && Rooted(fs, f) && Rooted(fs, q) && Live(fs, y)
    ensures Live(MovedUnder(fs, f, q), y)
    ensures MovedUnder(fs, f, q)[y].path != fs[y].path <==>
              ChildPath(fs, q) != fs[f].path && (y == f || ChildPath(fs, f) <= fs[y].path)
  {
    assert RowOk(fs, y);
    PrefixMatches(fs, f, Ids(fs, y));
    MovedRow(fs, f, q, y);
    RenderSnoc(Ids(fs, q), q);
    RenderSame(NewIds(fs, f, q, y), Ids(fs, y));
    RenderSame(Chain(fs, q), Ids(fs, f));
    if y == f || Chain(fs, f) <= Ids(fs, y) {
      NewIdsDiffer(Ids(fs, f), Chain(fs, q), f, Ids(fs, y), y);
    }
  }

  /**
   Any live folder but f, cut off or not: its path changes exactly if its parent's does, and nothing else
   in its row does.  If it reaches the root, the path changes exactly below f, provided that f's does.
   */
  lemma MoveFollowsParent(fs: Folders, f: nat, q: nat, y: nat)
    requires Indexed(fs) && Parented(fs) && Rooted(fs, f) && Rooted(fs, q) && Live(fs, y) && y != f
    ensures var fs', p := MovedUnder(fs, f, q), fs[y].parent;
      && y in fs' && fs'[y] == fs[y].(path := fs'[y].path)
      && (p.Some? ==> Live(fs, p.value) && Live(fs', p.value))
      && (fs'[y].path != fs[y].path <==> p.Some? && fs'[p.value].path != fs[p.value].path)
    ensures forall ids | Ancestry(fs, ids, y) ::
              && (MovedUnder(fs, f, q)[y].path != fs[y].path <==> f in ids && ChildPath(fs, q) != fs[f].path)
              && (f !in ids ==> Ancestry(MovedUnder(fs, f, q), ids, y))
  {
    LiveParent(fs, y);
    PrefixFollowsParent(fs, f, y);
    MoveChangesOnly(fs, f, q, y);
    MovedPathChanges(fs, f, q, y);
    if fs[y].parent.Some? {
      MovedPathChanges(fs, f, q, fs[y].parent.value);
    }
    forall ids | Ancestry(fs, ids, y) && f !in ids
      ensures Ancestry(MovedUnder(fs, f, q), ids, y)
    {
      MoveKeepsOutside(fs, f, q, ids, y);
    }
  }
}
