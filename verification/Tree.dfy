/**
 The folder tree behind the path index.

 A live folder is Placed under a list of ids when that list is its chain of live ancestors by
 parent pointers and every path along the chain is the rendered list above it.  The index is sound
 (Indexed) when each live folder is either Placed under the ids its own path spells, or has a path
 that repeats an id of a folder that is not placed: the trace of a move into its own subtree.
 */
module Tree {
  import opened Wrappers
  import opened Paths
  import opened Tables

  function ChildPath(fs: Folders, p: nat): string
    requires p in fs
  {
    fs[p].path + Str(p) + "/"
  }

  function Ids(fs: Folders, x: nat): seq<nat>
    requires x in fs
  {
    ParseIds(fs[x].path)
  }

  /** The ids of the path, and then the folder itself. */
  function Chain(fs: Folders, x: nat): seq<nat>
    requires x in fs
  {
    Ids(fs, x) + [x]
  }

  /** Parent pointers alone: ids are the live ancestors of the live folder x, from the root down. */
  ghost predicate Ancestry(fs: Folders, ids: seq<nat>, x: nat)
    decreases |ids|
  {
    && Live(fs, x)
    && if ids == [] then x == ROOT && fs[x].parent == None
       else fs[x].parent == Some(Last(ids)) && Ancestry(fs, Front(ids), Last(ids))
  }

  ghost predicate ReachesRoot(fs: Folders, x: nat) { exists ids :: Ancestry(fs, ids, x) }

  /** Parent pointers and paths agree all the way up. */
  ghost predicate Placed(fs: Folders, ids: seq<nat>, x: nat)
    decreases |ids|
  {
    && Live(fs, x)
    && fs[x].path == Render(ids)
    && if ids == [] then x == ROOT && fs[x].parent == None
       else fs[x].parent == Some(Last(ids)) && Placed(fs, Front(ids), Last(ids))
  }

  ghost predicate Rooted(fs: Folders, x: nat) { Live(fs, x) && Placed(fs, Ids(fs, x), x) }

  /** Positions i < j of the chain c both hold g, and what precedes i is sound. */
  ghost predicate LoopShape(fs: Folders, c: seq<nat>, i: int, j: int, g: nat) {
    && 0 <= i < j < |c|
    && c[i] == g
    && c[j] == g
    && (i > 0 ==> Placed(fs, c[..i - 1], c[i - 1]))
  }

  /** ... where g is a folder that is itself not placed. */
  ghost predicate LoopAt(fs: Folders, c: seq<nat>, i: int, j: int) {
    && 0 <= i < j < |c|
    && LoopShape(fs, c, i, j, c[i])
    && !Rooted(fs, c[i])
  }

  ghost predicate Looped(fs: Folders, x: nat)
    requires x in fs
  {
    exists i, j :: LoopAt(fs, Chain(fs, x), i, j)
  }

  ghost predicate RowOk(fs: Folders, x: nat)
    requires Live(fs, x)
  {
    && fs[x].path == Render(Ids(fs, x))
    && (forall k | 0 <= k < |Ids(fs, x)| :: Ids(fs, x)[k] in fs)
    && (fs[x].parent.Some? ==> fs[x].parent.value in fs)
    && (Rooted(fs, x) || Looped(fs, x))
    && (fs[x].parent.None? || Rooted(fs, fs[x].parent.value) ==> Rooted(fs, x))
  }

  ghost predicate Indexed(fs: Folders) { forall x {:trigger RowOk(fs, x)} | Live(fs, x) :: RowOk(fs, x) }

  ghost predicate Distinct(c: seq<nat>) { forall i, j | 0 <= i < j < |c| :: c[i] != c[j] }

  // ----- chains -----

  lemma {:induction false} PlacedAt(fs: Folders, ids: seq<nat>, x: nat, k: nat)
    requires Placed(fs, ids, x) && k < |ids|
    ensures Placed(fs, ids[..k], ids[k])
  {
    if k < |ids| - 1 {
      PlacedAt(fs, Front(ids), Last(ids), k);
      assert Front(ids)[..k] == ids[..k];
    }
  }

  lemma PlacedIds(fs: Folders, ids: seq<nat>, x: nat)
    requires Placed(fs, ids, x)
    ensures Ids(fs, x) == ids && Rooted(fs, x)
  {
    ParseRender(ids);
  }

  lemma PlacedDistinct(fs: Folders, ids: seq<nat>, x: nat)
    requires Placed(fs, ids, x)
    ensures Distinct(ids + [x])
  {
    var c := ids + [x];
    forall i, j | 0 <= i < j < |c|
      ensures c[i] != c[j]
    {
      PlacedAtChain(fs, ids, x, i);
      PlacedAtChain(fs, ids, x, j);
      PlacedIds(fs, c[..i], c[i]);
      PlacedIds(fs, c[..j], c[j]);
    }
  }

  /** PlacedAt, with the folder itself as the last element of the chain. */
  lemma PlacedAtChain(fs: Folders, ids: seq<nat>, x: nat, k: nat)
    requires Placed(fs, ids, x) && k <= |ids|
    ensures Placed(fs, (ids + [x])[..k], (ids + [x])[k])
  {
    if k < |ids| {
      PlacedAt(fs, ids, x, k);
      assert (ids + [x])[..k] == ids[..k];
    } else {
      assert (ids + [x])[..k] == ids;
    }
  }

  lemma OccursAt(fs: Folders, a: seq<nat>, f: nat, ids: seq<nat>, y: nat, k: nat)
    requires Placed(fs, a, f) && Placed(fs, ids, y) && k <= |ids| && (ids + [y])[k] == f
    ensures a + [f] == (ids + [y])[..k + 1]
  {
    PlacedAtChain(fs, ids, y, k);
    PlacedIds(fs, a, f);
    PlacedIds(fs, (ids + [y])[..k], f);
    assert (ids + [y])[..k + 1] == (ids + [y])[..k] + [f];
  }

  /** f is an ancestor of y exactly when the chain of f is a prefix of the ids of y. */
  lemma AncestorPrefix(fs: Folders, a: seq<nat>, f: nat, ids: seq<nat>, y: nat)
    requires Placed(fs, a, f) && Placed(fs, ids, y)
    ensures f in ids <==> a + [f] <= ids
  {
    if f in ids {
      var k :| 0 <= k < |ids| && ids[k] == f;
      OccursAt(fs, a, f, ids, y, k);
      assert (ids + [y])[..k + 1] == ids[..k + 1];
    }
    if a + [f] <= ids {
      assert ids[|a|] == f;
    }
  }

  /** `LIKE prefix%` on a path compares id lists. */
  lemma PrefixMatches(fs: Folders, f: nat, ids: seq<nat>)
    requires f in fs && fs[f].path == Render(Ids(fs, f))
    ensures ChildPath(fs, f) == Render(Chain(fs, f))
    ensures ChildPath(fs, f) <= Render(ids) <==> Chain(fs, f) <= ids
  {
    RenderSnoc(Ids(fs, f), f);
    RenderPrefix(Chain(fs, f), ids);
  }

  /** A sound stub that f is part of begins with the chain of f. */
  lemma StubMeets(fs: Folders, f: nat, y: nat, i: int)
    requires Rooted(fs, f) && y in fs && 0 < i <= |Ids(fs, y)|
    requires Placed(fs, Chain(fs, y)[..i - 1], Chain(fs, y)[i - 1])
    ensures f in Chain(fs, y)[..i] ==> Chain(fs, f) <= Ids(fs, y)
  {
    TakeSnoc(Chain(fs, y), i);
    if f in Chain(fs, y)[..i] {
      StubMeetsAt(fs, f, Ids(fs, y), y, i, Chain(fs, y)[..i - 1], Chain(fs, y)[i - 1]);
    }
  }

  lemma TakeSnoc(c: seq<nat>, i: int)
    requires 0 < i <= |c|
    ensures c[..i - 1] + [c[i - 1]] == c[..i]
  {
  }

  lemma StubMeetsAt(fs: Folders, f: nat, ids: seq<nat>, y: nat, i: int, stub: seq<nat>, z: nat)
    requires Rooted(fs, f) && Placed(fs, stub, z) && f in stub + [z]
    requires 0 < i <= |ids| && stub + [z] == (ids + [y])[..i]
    ensures Chain(fs, f) <= ids
  {
    var k :| 0 <= k < |stub + [z]| && (stub + [z])[k] == f;
    OccursAt(fs, Ids(fs, f), f, stub, z, k);
    StubPrefix(ids, y, i, k);
  }

  lemma StubPrefix(ids: seq<nat>, y: nat, i: nat, k: nat)
    requires k < i <= |ids|
    ensures (ids + [y])[..i][..k + 1] <= ids
  {
  }

  lemma ParentIds(fs: Folders, x: nat)
    requires Rooted(fs, x) && fs[x].parent.Some?
    ensures Rooted(fs, fs[x].parent.value)
    ensures Ids(fs, x) == Chain(fs, fs[x].parent.value)
  {
    PlacedIds(fs, Front(Ids(fs, x)), fs[x].parent.value);
  }

  lemma RepeatIsNotRooted(fs: Folders, x: nat, i: int, j: int)
    requires x in fs && 0 <= i < j < |Chain(fs, x)| && Chain(fs, x)[i] == Chain(fs, x)[j]
    ensures !Rooted(fs, x)
  {
    if Rooted(fs, x) {
      PlacedDistinct(fs, Ids(fs, x), x);
    }
  }

  /** The pointers and the index name the same ancestors, or there are none. */
  lemma {:induction false} AncestryIsPlaced(fs: Folders, ids: seq<nat>, x: nat)
    requires Indexed(fs) && Ancestry(fs, ids, x)
    ensures Placed(fs, ids, x)
    decreases |ids|
  {
    assert RowOk(fs, x);
    if ids != [] {
      AncestryIsPlaced(fs, Front(ids), Last(ids));
      PlacedIds(fs, Front(ids), Last(ids));
    }
    assert Rooted(fs, x);
    if ids != [] {
      SameByParent(fs, ids, Ids(fs, x), x);
    }
  }

  /** A folder placed under its own ids has the ids of its placed parent, and then the parent. */
  lemma SameByParent(fs: Folders, ids: seq<nat>, own: seq<nat>, x: nat)
    requires Placed(fs, own, x) && ids != []
    requires fs[x].parent == Some(Last(ids)) && Placed(fs, Front(ids), Last(ids))
    ensures own == ids
  {
    PlacedIds(fs, Front(ids), Last(ids));
    PlacedIds(fs, Front(own), Last(own));
    assert ids == Front(ids) + [Last(ids)] && own == Front(own) + [Last(own)];
  }

  lemma {:induction false} PlacedIsAncestry(fs: Folders, ids: seq<nat>, x: nat)
    requires Placed(fs, ids, x)
    ensures Ancestry(fs, ids, x)
    decreases |ids|
  {
    if ids != [] {
      PlacedIsAncestry(fs, Front(ids), Last(ids));
    }
  }

  /** A folder is Rooted exactly when its parent pointers lead through live folders to the root. */
  lemma RootedIffAncestry(fs: Folders, x: nat)
    requires Indexed(fs)
    ensures Rooted(fs, x) <==> ReachesRoot(fs, x)
  {
    if Rooted(fs, x) {
      PlacedIsAncestry(fs, Ids(fs, x), x);
      assert Ancestry(fs, Ids(fs, x), x);
    }
    forall ids | Ancestry(fs, ids, x)
      ensures Rooted(fs, x)
    {
      AncestryIsPlaced(fs, ids, x);
      PlacedIds(fs, ids, x);
    }
  }

  /** `LIKE prefix%` selects exactly the proper descendants by parent pointers. */
  lemma PrefixSelectsDescendants(fs: Folders, f: nat, y: nat, ids: seq<nat>)
    requires Indexed(fs) && Rooted(fs, f) && Ancestry(fs, ids, y)
    ensures ChildPath(fs, f) <= fs[y].path <==> f in ids
  {
    AncestryIsPlaced(fs, ids, y);
    PrefixMatches(fs, f, ids);
    AncestorPrefix(fs, Ids(fs, f), f, ids, y);
  }

  // ----- CreateFolder -----

  function Created(fs: Folders, n: nat, name: string, p: nat, path: string, inherits: bool, retention: nat): Folders {
    fs[n := Folder(name, Some(p), path, inherits, retention, None)]
  }

  /** Rows of fs keep their data in fs' except for liveness and the inheritance-neutral columns. */
  lemma {:induction false} PlacedFrame(fs: Folders, fs': Folders, ids: seq<nat>, x: nat)
    requires Placed(fs, ids, x)
    requires forall y | y in ids + [x] && y in fs ::
               y in fs' && fs'[y].path == fs[y].path && fs'[y].parent == fs[y].parent && Live(fs', y)
    ensures Placed(fs', ids, x)
    decreases |ids|
  {
    assert x in ids + [x];
    if ids != [] {
      forall y | y in Front(ids) + [Last(ids)]
        ensures y in ids + [x]
      {
        assert Front(ids) + [Last(ids)] == ids;
      }
      PlacedFrame(fs, fs', Front(ids), Last(ids));
    }
  }

  lemma CreateKeepsIndexed(fs: Folders, n: nat, name: string, p: nat, inherits: bool, retention: nat)
    requires Indexed(fs) && n !in fs && Rooted(fs, p)
    ensures var fs' := Created(fs, n, name, p, ChildPath(fs, p), inherits, retention);
      && Indexed(fs')
      && Placed(fs', Chain(fs, p), n)
      && forall y | y != n :: Rooted(fs', y) <==> Rooted(fs, y)
  {
    var fs' := Created(fs, n, name, p, ChildPath(fs, p), inherits, retention);
    forall ids: seq<nat>, y | Placed(fs, ids, y)
      ensures Placed(fs', ids, y)
    {
      PlacedInTable(fs, ids, y);
      PlacedFrame(fs, fs', ids, y);
    }
    forall y | y != n
      ensures Rooted(fs', y) <==> Rooted(fs, y)
    {
      if Rooted(fs', y) {
        assert RowOk(fs, y);
        assert forall z | z in Ids(fs, y) + [y] :: z in fs;
        PlacedInTable(fs', Ids(fs', y), y);
        PlacedFrame(fs', fs, Ids(fs', y), y);
      }
    }
    RenderSnoc(Ids(fs, p), p);
    ParseRender(Chain(fs, p));
    assert Front(Chain(fs, p)) == Ids(fs, p);
    forall y | Live(fs', y)
      ensures RowOk(fs', y)
    {
      if y == n {
        PlacedInTable(fs, Ids(fs, p), p);
      } else {
        assert RowOk(fs, y);
        if i, j :| LoopAt(fs, Chain(fs, y), i, j) {
          assert Chain(fs, y)[i] != n;
          assert LoopAt(fs', Chain(fs', y), i, j);
        }
      }
    }
  }

  lemma PlacedInTable(fs: Folders, ids: seq<nat>, x: nat)
    requires Placed(fs, ids, x)
    ensures forall k | 0 <= k < |ids| :: ids[k] in fs
    ensures forall y | y in ids + [x] :: Rooted(fs, y)
  {
    forall k | 0 <= k <= |ids|
      ensures Rooted(fs, (ids + [x])[k])
    {
      PlacedAtChain(fs, ids, x, k);
      PlacedIds(fs, (ids + [x])[..k], (ids + [x])[k]);
    }
    forall k | 0 <= k < |ids|
      ensures ids[k] in fs
    {
      assert (ids + [x])[k] == ids[k];
    }
  }
}
