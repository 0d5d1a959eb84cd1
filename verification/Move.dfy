/**
 MoveFolder as a table update: re-parent one row, then rewrite the path prefix of every live row
 below it.  The handler accepts any live target, so the target may lie inside the moved subtree.
 */
module Move {
  import opened Wrappers
  import opened Paths
  import opened Tables
  import opened Tree

  /** First UPDATE: the moved row itself. */
  function Reparented(fs: Folders, f: nat, q: nat, newPath: string): Folders
    requires f in fs
  {
    fs[f := fs[f].(parent := Some(q), path := newPath)]
  }

  /** Second UPDATE, on one row: replace a matching prefix on live rows. */
  function RewriteRow(row: Folder, oldPrefix: string, newPrefix: string): Folder {
    if row.deletedAt == None && oldPrefix <= row.path
    then row.(path := newPrefix + row.path[|oldPrefix|..]) else row
  }

  function Moved(fs: Folders, f: nat, q: nat, newPath: string): Folders
    requires f in fs
  {
    var oldPrefix, newPrefix := ChildPath(fs, f), newPath + Str(f) + "/";
    var t := Reparented(fs, f, q, newPath);
    map y | y in t :: RewriteRow(t[y], oldPrefix, newPrefix)
  }

  /** The table after the move handler ran for f and a live target q. */
  function MovedUnder(fs: Folders, f: nat, q: nat): Folders
    requires f in fs && q in fs
  {
    Moved(fs, f, q, ChildPath(fs, q))
  }

  /** The id list that replaces ids when the subtree with chain c becomes the one with chain d. */
  function Graft(c: seq<nat>, d: seq<nat>, ids: seq<nat>): seq<nat> {
    if c <= ids then d + ids[|c|..] else ids
  }

  /** The ids a row's path spells between the two UPDATE statements. */
  function StartIds(fs: Folders, f: nat, q: nat, y: nat): seq<nat>
    requires q in fs && y in fs
  {
    if y == f then Chain(fs, q) else Ids(fs, y)
  }

  function NewIds(fs: Folders, f: nat, q: nat, y: nat): seq<nat>
    requires f in fs && q in fs && y in fs
  {
    Graft(Chain(fs, f), Chain(fs, q) + [f], StartIds(fs, f, q, y))
  }

  /** The string rewrite of one live row is a graft of its id list. */
  lemma MovedRow(fs: Folders, f: nat, q: nat, y: nat)
    requires Indexed(fs) && Rooted(fs, f) && Rooted(fs, q) && Live(fs, y)
    ensures var fs' := MovedUnder(fs, f, q);
      && Live(fs', y)
      && fs'[y].path == Render(NewIds(fs, f, q, y))
      && Ids(fs', y) == NewIds(fs, f, q, y)
      && fs'[y].parent == (if y == f then Some(q) else fs[y].parent)
  {
    assert RowOk(fs, y);
    var start := StartIds(fs, f, q, y);
    var c, d := Chain(fs, f), Chain(fs, q) + [f];
    RenderSnoc(Ids(fs, q), q);
    RenderSnoc(Chain(fs, q), f);
    PrefixMatches(fs, f, start);
    if c <= start {
      RenderReplacePrefix(c, d, start);
    }
    ParseRender(NewIds(fs, f, q, y));
  }

  /** Folders that are neither f nor below it keep their place. */
  lemma {:induction false} MovedOutside(fs: Folders, f: nat, q: nat, ids: seq<nat>, y: nat)
    requires Indexed(fs) && Rooted(fs, f) && Rooted(fs, q)
    requires Placed(fs, ids, y) && f !in ids && y != f
    ensures Placed(MovedUnder(fs, f, q), ids, y)
    decreases |ids|
  {
    MovedRow(fs, f, q, y);
    PlacedIds(fs, ids, y);
    assert Chain(fs, f)[|Ids(fs, f)|] == f;
    assert !(Chain(fs, f) <= ids);
    if ids != [] {
      MovedOutside(fs, f, q, Front(ids), Last(ids));
    }
  }

  /** Rows with a matching path, f included, get a path that starts with the new chain of f. */
  ghost predicate Hit(fs: Folders, f: nat, q: nat, y: nat)
    requires f in fs && q in fs && y in fs
  {
    Chain(fs, f) <= StartIds(fs, f, q, y)
  }

  ghost predicate Cyclic(fs: Folders, f: nat, q: nat)
    requires q in fs
  {
    f in Chain(fs, q)
  }

  /** A row that is not rewritten, and looped before, still loops at the same positions. */
  lemma MissedKeepsStub(fs: Folders, f: nat, q: nat, y: nat, i: int, j: int)
    requires Indexed(fs) && Rooted(fs, f) && Rooted(fs, q) && Live(fs, y) && y != f
    requires !Hit(fs, f, q, y) && LoopAt(fs, Chain(fs, y), i, j)
    ensures Chain(MovedUnder(fs, f, q), y) == Chain(fs, y)
    ensures i > 0 ==> Placed(MovedUnder(fs, f, q), Chain(fs, y)[..i - 1], Chain(fs, y)[i - 1])
  {
    MovedRow(fs, f, q, y);
    if i > 0 {
      var stub, z := Chain(fs, y)[..i - 1], Chain(fs, y)[i - 1];
      StubMeets(fs, f, y, i);
      assert stub + [z] == Chain(fs, y)[..i];
      assert z in stub + [z] && forall x | x in stub :: x in stub + [z];
      MovedOutside(fs, f, q, stub, z);
    }
    MovedRow(fs, f, q, y);
  }

  // ----- moves out of the subtree -----

  /** The moved folder hangs under the target. */
  lemma MovedTop(fs: Folders, f: nat, q: nat)
    requires Indexed(fs) && Rooted(fs, f) && Rooted(fs, q) && !Cyclic(fs, f, q)
    ensures NewIds(fs, f, q, f) == Chain(fs, q)
    ensures Placed(MovedUnder(fs, f, q), Chain(fs, q), f)
  {
    assert Chain(fs, f)[|Ids(fs, f)|] == f;
    assert forall k | 0 <= k < |Ids(fs, q)| :: Chain(fs, q)[k] == Ids(fs, q)[k];
    assert Chain(fs, q)[|Ids(fs, q)|] == q;
    MovedRow(fs, f, q, f);
    MovedOutside(fs, f, q, Ids(fs, q), q);
    assert Front(Chain(fs, q)) == Ids(fs, q);
  }

  /** The chain of a folder below f begins with the chain of f. */
  lemma BelowIds(fs: Folders, f: nat, q: nat, ids: seq<nat>, y: nat)
    requires Rooted(fs, f) && q in fs && Placed(fs, ids, y) && f in ids
    ensures Rooted(fs, y) && Ids(fs, y) == ids && y != f && Chain(fs, f) <= ids
    ensures Last(ids) == f ==> ids == Chain(fs, f)
    ensures Last(ids) != f ==> f in Front(ids)
  {
    PlacedIds(fs, ids, y);
    AncestorPrefix(fs, Ids(fs, f), f, ids, y);
    PlacedDistinct(fs, ids, y);
    var k :| 0 <= k < |ids| && ids[k] == f;
    assert (ids + [y])[k] == f && (ids + [y])[|ids|] == y;
    if Last(ids) == f {
      PlacedIds(fs, Front(ids), f);
    } else {
      assert Front(ids)[k] == f;
    }
  }

  lemma GraftFront(c: seq<nat>, d: seq<nat>, ids: seq<nat>)
    requires ids != [] && c <= Front(ids)
    ensures Graft(c, d, ids) == Graft(c, d, Front(ids)) + [Last(ids)]
    ensures Front(Graft(c, d, ids)) == Graft(c, d, Front(ids))
  {
  }

  /** The subtree below the moved folder hangs on it as it did. */
  lemma {:induction false} MovedBelow(fs: Folders, f: nat, q: nat, ids: seq<nat>, y: nat)
    requires Indexed(fs) && Rooted(fs, f) && Rooted(fs, q) && !Cyclic(fs, f, q)
    requires Placed(fs, ids, y) && f in ids
    ensures Placed(MovedUnder(fs, f, q), Graft(Chain(fs, f), Chain(fs, q) + [f], ids), y)
    decreases |ids|
  {
    BelowIds(fs, f, q, ids, y);
    var c, d := Chain(fs, f), Chain(fs, q) + [f];
    if Last(ids) == f {
      MovedTop(fs, f, q);
      assert Graft(c, d, ids) == d && Front(d) == Chain(fs, q);
    } else {
      var p := Last(ids);
      MovedBelow(fs, f, q, Front(ids), p);
      BelowIds(fs, f, q, Front(ids), p);
      GraftFront(c, d, ids);
    }
    MovedRow(fs, f, q, y);
  }

  /** A loop lies behind the sound chain of any ancestor its path names. */
  lemma LoopBehind(fs: Folders, f: nat, s: seq<nat>, i: int, j: int)
    requires Rooted(fs, f) && LoopAt(fs, s, i, j) && Chain(fs, f) <= s
    ensures |Chain(fs, f)| <= i
    ensures if i == |Chain(fs, f)| then s[i - 1] == f else f in s[..i - 1]
  {
    var c := Chain(fs, f);
    PlacedInTable(fs, Ids(fs, f), f);
    assert forall k | 0 <= k < |c| :: c[k] == s[k] && c[k] in c;
    assert s[|c| - 1] == f;
    if i > |c| {
      assert s[..i - 1][|c| - 1] == f;
    }
  }

  lemma GraftStub(c: seq<nat>, above: seq<nat>, f: nat, ids: seq<nat>, y: nat, i: int)
    requires c != [] && c <= ids && |c| <= i <= |ids|
    ensures (Graft(c, above + [f], ids) + [y])[..i + |above| - |c|]
         == if i == |c| then above else Graft(c, above + [f], (ids + [y])[..i - 1])
  {
  }

  lemma LoopFrom(fs: Folders, c: seq<nat>, above: seq<nat>, f: nat, ids: seq<nat>, y: nat, i: int, j: int)
    returns (i': int, j': int)
    requires c != [] && Last(c) == f && c <= ids && |c| <= i < j <= |ids| && (ids + [y])[i] == (ids + [y])[j]
    requires Placed(fs, if i == |c| then above else Graft(c, above + [f], (ids + [y])[..i - 1]), (ids + [y])[i - 1])
    ensures LoopShape(fs, Graft(c, above + [f], ids) + [y], i', j', (ids + [y])[i])
  {
    i', j' := i + |above| + 1 - |c|, j + |above| + 1 - |c|;
    GraftStub(c, above, f, ids, y, i);
    GraftLoop(c, above + [f], ids, y, i, j);
  }

  /** A placed folder at or below f lands where the prefix says. */
  lemma MovedSubtree(fs: Folders, f: nat, q: nat, ids: seq<nat>, y: nat, top: bool)
    requires Indexed(fs) && Rooted(fs, f) && Rooted(fs, q) && !Cyclic(fs, f, q)
    requires Placed(fs, ids, y) && (if top then y == f else f in ids)
    ensures Placed(MovedUnder(fs, f, q),
                   if top then Chain(fs, q) else Graft(Chain(fs, f), Chain(fs, q) + [f], ids), y)
  {
    if top {
      MovedTop(fs, f, q);
    } else {
      MovedBelow(fs, f, q, ids, y);
    }
  }

  /** The two occurrences and the folder before the first one shift together. */
  lemma GraftLoop(c: seq<nat>, d: seq<nat>, ids: seq<nat>, y: nat, i: int, j: int)
    requires c != [] && d != [] && Last(c) == Last(d) && c <= ids && |c| <= i < j <= |ids|
    ensures var s, s', k := ids + [y], Graft(c, d, ids) + [y], |d| - |c|;
      && 0 < i + k < j + k < |s'|
      && s'[i + k] == s[i] && s'[j + k] == s[j] && s'[i + k - 1] == s[i - 1]
  {
  }

  lemma MovedLoopHit(fs: Folders, f: nat, q: nat, ids: seq<nat>, y: nat, i: int, j: int) returns (i': int, j': int)
    requires Indexed(fs) && Rooted(fs, f) && Rooted(fs, q) && !Cyclic(fs, f, q)
    requires LoopAt(fs, ids + [y], i, j) && Chain(fs, f) <= ids
    ensures LoopShape(MovedUnder(fs, f, q), Graft(Chain(fs, f), Chain(fs, q) + [f], ids) + [y], i', j', (ids + [y])[i])
  {
    LoopBehind(fs, f, ids + [y], i, j);
    MovedSubtree(fs, f, q, (ids + [y])[..i - 1], (ids + [y])[i - 1], i == |Chain(fs, f)|);
    i', j' := LoopFrom(MovedUnder(fs, f, q), Chain(fs, f), Chain(fs, q), f, ids, y, i, j);
  }

  /** Where a loop sits after a move out of the subtree. */
  lemma MovedLoop(fs: Folders, f: nat, q: nat, y: nat, i: int, j: int) returns (i': int, j': int)
    requires Indexed(fs) && Rooted(fs, f) && Rooted(fs, q) && !Cyclic(fs, f, q)
    requires Live(fs, y) && LoopAt(fs, Chain(fs, y), i, j)
    ensures Live(MovedUnder(fs, f, q), y)
    ensures LoopShape(MovedUnder(fs, f, q), Chain(MovedUnder(fs, f, q), y), i', j', Chain(fs, y)[i])
  {
    RepeatIsNotRooted(fs, y, i, j);
    MovedRow(fs, f, q, y);
    if Hit(fs, f, q, y) {
      i', j' := MovedLoopHit(fs, f, q, Ids(fs, y), y, i, j);
    } else {
      i', j' := i, j;
      MissedKeepsStub(fs, f, q, y, i, j);
    }
  }

  lemma NotRootedAfterMove(fs: Folders, f: nat, q: nat, y: nat)
    requires Indexed(fs) && Rooted(fs, f) && Rooted(fs, q) && !Cyclic(fs, f, q)
    requires !Rooted(fs, y)
    ensures !Rooted(MovedUnder(fs, f, q), y)
  {
    if Live(fs, y) {
      assert RowOk(fs, y);
      var i, j :| LoopAt(fs, Chain(fs, y), i, j);
      var i', j' := MovedLoop(fs, f, q, y, i, j);
      RepeatIsNotRooted(MovedUnder(fs, f, q), y, i', j');
    }
  }

  lemma RootedAfterMove(fs: Folders, f: nat, q: nat, y: nat)
    requires Indexed(fs) && Rooted(fs, f) && Rooted(fs, q) && !Cyclic(fs, f, q) && Rooted(fs, y)
    ensures Placed(MovedUnder(fs, f, q), NewIds(fs, f, q, y), y)
    ensures Rooted(MovedUnder(fs, f, q), y)
  {
    var ids := Ids(fs, y);
    if y == f {
      MovedTop(fs, f, q);
    } else if f in ids {
      BelowIds(fs, f, q, ids, y);
      MovedBelow(fs, f, q, ids, y);
    } else {
      MovedOutside(fs, f, q, ids, y);
      assert Chain(fs, f)[|Ids(fs, f)|] == f;
      assert !(Chain(fs, f) <= ids);
    }
    PlacedIds(MovedUnder(fs, f, q), NewIds(fs, f, q, y), y);
  }

  lemma NewIdsInTable(fs: Folders, f: nat, q: nat, y: nat)
    requires Indexed(fs) && Rooted(fs, f) && Rooted(fs, q) && Live(fs, y)
    ensures forall k | 0 <= k < |NewIds(fs, f, q, y)| :: NewIds(fs, f, q, y)[k] in fs
  {
    assert RowOk(fs, y) && RowOk(fs, q);
    AllInTable(fs, Ids(fs, q), q);
    AllInTable(fs, Chain(fs, q), f);
    GraftInTable(fs, Chain(fs, f), Chain(fs, q) + [f], StartIds(fs, f, q, y));
  }

  lemma {:induction false} AllInTable(fs: Folders, ids: seq<nat>, x: nat)
    requires x in fs && forall k | 0 <= k < |ids| :: ids[k] in fs
    ensures forall k | 0 <= k < |ids + [x]| :: (ids + [x])[k] in fs
  {
  }

  lemma {:induction false} GraftInTable(fs: Folders, c: seq<nat>, d: seq<nat>, ids: seq<nat>)
    requires forall k | 0 <= k < |d| :: d[k] in fs
    requires forall k | 0 <= k < |ids| :: ids[k] in fs
    ensures forall k | 0 <= k < |Graft(c, d, ids)| :: Graft(c, d, ids)[k] in fs
  {
  }

  /** A move to a target outside the moved subtree keeps the index sound. */
  lemma MoveKeepsIndexed(fs: Folders, f: nat, q: nat)
    requires Indexed(fs) && Rooted(fs, f) && Rooted(fs, q) && !Cyclic(fs, f, q)
    ensures Indexed(MovedUnder(fs, f, q))
    ensures forall y :: Rooted(MovedUnder(fs, f, q), y) <==> Rooted(fs, y)
  {
    var fs' := MovedUnder(fs, f, q);
    forall y
      ensures Rooted(fs', y) <==> Rooted(fs, y)
    {
      if Rooted(fs, y) {
        RootedAfterMove(fs, f, q, y);
      } else {
        NotRootedAfterMove(fs, f, q, y);
      }
    }
    forall y | Live(fs', y)
      ensures RowOk(fs', y)
    {
      assert RowOk(fs, y);
      MovedRow(fs, f, q, y);
      NewIdsInTable(fs, f, q, y);
      if !Rooted(fs, y) {
        var i, j :| LoopAt(fs, Chain(fs, y), i, j);
        var i', j' := MovedLoop(fs, f, q, y, i, j);
        assert LoopAt(fs', Chain(fs', y), i', j');
      }
    }
  }

  // ----- moves into the subtree -----

  /** The new path of f, and of everything below it, spells f twice. */
  lemma CyclicIds(fs: Folders, f: nat, q: nat, y: nat)
    requires Indexed(fs) && Rooted(fs, f) && Rooted(fs, q) && Cyclic(fs, f, q)
    requires Live(fs, y) && (y == f || Hit(fs, f, q, y))
    ensures Chain(fs, f) <= Chain(fs, q)
    ensures Chain(fs, q) + [f] <= Ids(MovedUnder(fs, f, q), y)
  {
    var k :| 0 <= k < |Chain(fs, q)| && Chain(fs, q)[k] == f;
    OccursAt(fs, Ids(fs, f), f, Ids(fs, q), q, k);
    MovedRow(fs, f, q, y);
  }

  /** The part of the chain of f above f is not touched by the move. */
  lemma CyclicStub(fs: Folders, f: nat, q: nat)
    requires Indexed(fs) && Rooted(fs, f) && Rooted(fs, q)
    ensures Ids(fs, f) != [] ==> Placed(MovedUnder(fs, f, q), Front(Ids(fs, f)), Last(Ids(fs, f)))
  {
    var ids, c := Ids(fs, f), Chain(fs, f);
    PlacedDistinct(fs, ids, f);
    assert c[|ids|] == f;
    assert forall n | 0 <= n < |ids| :: c[n] == ids[n] != f;
    if ids != [] {
      MovedOutside(fs, f, q, Front(ids), Last(ids));
    }
  }

  lemma TwiceIn(a: seq<nat>, f: nat, b: seq<nat>, ids: seq<nat>, y: nat)
    requires a + [f] <= b && b + [f] <= ids
    ensures (ids + [y])[|a|] == (ids + [y])[|b|] == f
    ensures a != [] ==> (ids + [y])[..|a| - 1] == Front(a) && (ids + [y])[|a| - 1] == Last(a)
  {
  }

  /** After a move into its own subtree, f and everything below repeats f and is no longer placed. */
  lemma CyclicHit(fs: Folders, f: nat, q: nat, y: nat)
    requires Indexed(fs) && Rooted(fs, f) && Rooted(fs, q) && Cyclic(fs, f, q)
    requires Live(fs, y) && (y == f || Hit(fs, f, q, y))
    ensures var fs' := MovedUnder(fs, f, q);
      !Rooted(fs', f) && !Rooted(fs', y) && LoopAt(fs', Chain(fs', y), |Ids(fs, f)|, |Chain(fs, q)|)
  {
    var fs' := MovedUnder(fs, f, q);
    CyclicIds(fs, f, q, f);
    CyclicIds(fs, f, q, y);
    CyclicStub(fs, f, q);
    TwiceIn(Ids(fs, f), f, Chain(fs, q), Ids(fs', f), f);
    TwiceIn(Ids(fs, f), f, Chain(fs, q), Ids(fs', y), y);
    RepeatIsNotRooted(fs', f, |Ids(fs, f)|, |Chain(fs, q)|);
    RepeatIsNotRooted(fs', y, |Ids(fs, f)|, |Chain(fs, q)|);
  }

  lemma NotRootedAfterCyclicMove(fs: Folders, f: nat, q: nat, y: nat)
    requires Indexed(fs) && Rooted(fs, f) && Rooted(fs, q) && Cyclic(fs, f, q)
    requires !Rooted(fs, y)
    ensures !Rooted(MovedUnder(fs, f, q), y)
  {
    if Live(fs, y) {
      if Hit(fs, f, q, y) {
        CyclicHit(fs, f, q, y);
      } else {
        assert RowOk(fs, y);
        var i, j :| LoopAt(fs, Chain(fs, y), i, j);
        MissedKeepsStub(fs, f, q, y, i, j);
        RepeatIsNotRooted(MovedUnder(fs, f, q), y, i, j);
      }
    }
  }

  /** Exactly the folders that were not placed, and f's subtree, are not placed after such a move. */
  lemma RootedAfterCyclicMove(fs: Folders, f: nat, q: nat, y: nat)
    requires Indexed(fs) && Rooted(fs, f) && Rooted(fs, q) && Cyclic(fs, f, q)
    ensures Rooted(MovedUnder(fs, f, q), y) <==> Rooted(fs, y) && f !in Chain(fs, y)
  {
    if !Rooted(fs, y) {
      NotRootedAfterCyclicMove(fs, f, q, y);
    } else if f in Chain(fs, y) {
      if y != f {
        AncestorPrefix(fs, Ids(fs, f), f, Ids(fs, y), y);
      }
      CyclicHit(fs, f, q, y);
    } else {
      assert Chain(fs, y)[|Ids(fs, y)|] == y;
      MovedOutside(fs, f, q, Ids(fs, y), y);
      PlacedIds(MovedUnder(fs, f, q), Ids(fs, y), y);
    }
  }

  lemma CyclicLooped(fs: Folders, f: nat, q: nat, y: nat)
    requires Indexed(fs) && Rooted(fs, f) && Rooted(fs, q) && Cyclic(fs, f, q)
    requires Live(fs, y) && !Rooted(MovedUnder(fs, f, q), y)
    ensures Looped(MovedUnder(fs, f, q), y)
  {
    var fs' := MovedUnder(fs, f, q);
    RootedAfterCyclicMove(fs, f, q, y);
    if y == f || Hit(fs, f, q, y) {
      CyclicHit(fs, f, q, y);
    } else if Rooted(fs, y) {
      assert f in Ids(fs, y);
      BelowIds(fs, f, q, Ids(fs, y), y);
      assert false;
    } else {
      assert RowOk(fs, y);
      var i, j :| LoopAt(fs, Chain(fs, y), i, j);
      MissedKeepsStub(fs, f, q, y, i, j);
      NotRootedAfterCyclicMove(fs, f, q, Chain(fs, y)[i]);
      assert LoopAt(fs', Chain(fs', y), i, j);
    }
  }

  lemma CyclicChildren(fs: Folders, f: nat, q: nat, y: nat)
    requires Indexed(fs) && Rooted(fs, f) && Rooted(fs, q) && Cyclic(fs, f, q) && Live(fs, y)
    requires var fs' := MovedUnder(fs, f, q);
      y in fs' && (fs'[y].parent.None? || Rooted(fs', fs'[y].parent.value))
    ensures Rooted(MovedUnder(fs, f, q), y)
  {
    assert RowOk(fs, y);
    MovedRow(fs, f, q, y);
    RootedAfterCyclicMove(fs, f, q, y);
    RootedAfterCyclicMove(fs, f, q, q);
    if fs[y].parent.Some? {
      RootedAfterCyclicMove(fs, f, q, fs[y].parent.value);
      if y != f {
        ParentIds(fs, y);
      }
    }
  }

  lemma CyclicRowOk(fs: Folders, f: nat, q: nat, y: nat)
    requires Indexed(fs) && Rooted(fs, f) && Rooted(fs, q) && Cyclic(fs, f, q)
    requires Live(fs, y)
    ensures RowOk(MovedUnder(fs, f, q), y)
  {
    var fs' := MovedUnder(fs, f, q);
    assert RowOk(fs, y);
    MovedRow(fs, f, q, y);
    NewIdsInTable(fs, f, q, y);
    if !Rooted(fs', y) {
      CyclicLooped(fs, f, q, y);
    }
    if fs'[y].parent.None? || Rooted(fs', fs'[y].parent.value) {
      CyclicChildren(fs, f, q, y);
    }
  }

  /** A move into the own subtree keeps the index sound as well: its damage stays recognizable. */
  lemma CyclicMoveKeepsIndexed(fs: Folders, f: nat, q: nat)
    requires Indexed(fs) && Rooted(fs, f) && Rooted(fs, q) && Cyclic(fs, f, q)
    ensures Indexed(MovedUnder(fs, f, q))
  {
    forall y | Live(MovedUnder(fs, f, q), y)
      ensures RowOk(MovedUnder(fs, f, q), y)
    {
      CyclicRowOk(fs, f, q, y);
    }
  }

  // ----- what a move means -----

  /** Columns other than parent and path never change, and deleted rows do not change at all. */
  lemma MoveChangesOnly(fs: Folders, f: nat, q: nat, y: nat)
    requires f in fs && q in fs && y in fs
    ensures var fs' := MovedUnder(fs, f, q);
      && fs'.Keys == fs.Keys
      && fs'[y] == fs[y].(parent := if y == f then Some(q) else fs[y].parent, path := fs'[y].path)
      && (!Live(fs, y) && y != f ==> fs'[y] == fs[y])
  {
  }

  /** Rows outside the subtree are untouched and keep their ancestors. */
  lemma MoveKeepsOutside(fs: Folders, f: nat, q: nat, ids: seq<nat>, y: nat)
    requires Indexed(fs) && Rooted(fs, f) && Rooted(fs, q)
    requires Ancestry(fs, ids, y) && f !in ids && y != f
    ensures MovedUnder(fs, f, q)[y] == fs[y]
    ensures Ancestry(MovedUnder(fs, f, q), ids, y)
  {
    AncestryIsPlaced(fs, ids, y);
    MovedOutside(fs, f, q, ids, y);
    PlacedIsAncestry(MovedUnder(fs, f, q), ids, y);
    PrefixSelectsDescendants(fs, f, y, ids);
  }

  lemma GraftTail(above: seq<nat>, d: seq<nat>, f: nat, ids: seq<nat>)
    requires above + [f] <= ids
    ensures above <= ids && Graft(above + [f], d + [f], ids) == d + ids[|above|..]
  {
  }

  lemma NewIdsBelow(fs: Folders, f: nat, q: nat, ids: seq<nat>, y: nat)
    requires Rooted(fs, f) && q in fs && !Cyclic(fs, f, q) && Placed(fs, ids, y) && f in ids + [y]
    ensures Ids(fs, f) <= ids && NewIds(fs, f, q, y) == Chain(fs, q) + ids[|Ids(fs, f)|..]
  {
    PlacedIds(fs, ids, y);
    if y == f {
      assert Chain(fs, f)[|Ids(fs, f)|] == f;
      assert NewIds(fs, f, q, f) == Chain(fs, q);
    } else {
      BelowIds(fs, f, q, ids, y);
      GraftTail(Ids(fs, f), Chain(fs, q), f, ids);
    }
  }

  /** Inside the subtree the ancestors are those of plain re-parenting, and the path spells them. */
  lemma MoveRefinesReparenting(fs: Folders, f: nat, q: nat, ids: seq<nat>, y: nat)
    requires Indexed(fs) && Rooted(fs, f) && Rooted(fs, q) && !Cyclic(fs, f, q)
    requires Ancestry(fs, ids, y) && f in ids + [y]
    ensures Ids(fs, f) <= ids
    ensures Ancestry(MovedUnder(fs, f, q), Chain(fs, q) + ids[|Ids(fs, f)|..], y)
    ensures MovedUnder(fs, f, q)[y].path == Render(Chain(fs, q) + ids[|Ids(fs, f)|..])
  {
    AncestryIsPlaced(fs, ids, y);
    NewIdsBelow(fs, f, q, ids, y);
    PlacedIds(fs, ids, y);
    RootedAfterMove(fs, f, q, y);
    PlacedIsAncestry(MovedUnder(fs, f, q), NewIds(fs, f, q, y), y);
  }

  /** In the new tree every folder with a live path to the root is indexed, and none is gained or lost. */
  lemma MoveIndexesNewTree(fs: Folders, f: nat, q: nat, ids: seq<nat>, y: nat)
    requires Indexed(fs) && Rooted(fs, f) && Rooted(fs, q) && !Cyclic(fs, f, q)
    ensures ReachesRoot(MovedUnder(fs, f, q), y) <==> ReachesRoot(fs, y)
    ensures Ancestry(MovedUnder(fs, f, q), ids, y) ==> MovedUnder(fs, f, q)[y].path == Render(ids)
  {
    MoveKeepsIndexed(fs, f, q);
    RootedIffAncestry(MovedUnder(fs, f, q), y);
    RootedIffAncestry(fs, y);
    if Ancestry(MovedUnder(fs, f, q), ids, y) {
      AncestryIsPlaced(MovedUnder(fs, f, q), ids, y);
    }
  }

  /** A live row whose path spells the new chain of f is below f already. */
  lemma NoStrayRow(fs: Folders, f: nat, q: nat, y: nat)
    requires Indexed(fs) && Rooted(fs, f) && Rooted(fs, q) && Live(fs, y)
    requires Chain(fs, q) + [f] <= Ids(fs, y)
    ensures Chain(fs, f) <= Ids(fs, y)
  {
    var d, s := Chain(fs, q) + [f], Chain(fs, y);
    assert RowOk(fs, y);
    assert d[|d| - 1] == f;
    if Rooted(fs, y) {
      OccursAt(fs, Ids(fs, f), f, Ids(fs, y), y, |d| - 1);
      assert s[..|d|] == Ids(fs, y)[..|d|];
    } else {
      var i, j :| LoopAt(fs, s, i, j);
      StrayBehind(fs, f, q, Ids(fs, y), y, i, j);
      StubMeets(fs, f, y, i);
    }
  }

  lemma StrayBehind(fs: Folders, f: nat, q: nat, ids: seq<nat>, y: nat, i: int, j: int)
    requires Rooted(fs, f) && Rooted(fs, q) && Chain(fs, q) + [f] <= ids
    requires LoopAt(fs, ids + [y], i, j)
    ensures i > 0 && i <= |ids| && f in (ids + [y])[..i]
  {
    var d, s := Chain(fs, q) + [f], ids + [y];
    PlacedInTable(fs, Ids(fs, q), q);
    assert forall k | 0 <= k < |d| - 1 :: d[k] == Chain(fs, q)[k] && Chain(fs, q)[k] in Chain(fs, q);
    assert forall k | 0 <= k < |d| :: s[k] == d[k] && Rooted(fs, d[k]);
    assert |d| <= i;
    assert s[..i][|d| - 1] == d[|d| - 1];
  }

  lemma GraftBack(c: seq<nat>, d: seq<nat>, ids: seq<nat>)
    requires d <= ids ==> c <= ids
    ensures Graft(d, c, Graft(c, d, ids)) == ids
  {
  }

  lemma LastIsNew(ids: seq<nat>, x: nat)
    requires Distinct(ids + [x])
    ensures x !in ids
  {
    assert forall k | 0 <= k < |ids| :: (ids + [x])[k] == ids[k] && (ids + [x])[|ids|] == x;
  }

  lemma NotInChain(ids: seq<nat>, x: nat, f: nat)
    requires f !in ids + [x]
    ensures f !in ids && f != x
  {
  }

  /** The chains of f, of its parent and of the target, before and after the move. */
  lemma ChainsAfterMove(fs: Folders, f: nat, q: nat)
    requires Indexed(fs) && Rooted(fs, f) && Rooted(fs, q) && !Cyclic(fs, f, q) && fs[f].parent.Some?
    ensures var fs', p := MovedUnder(fs, f, q), fs[f].parent.value;
      && Rooted(fs', f) && Rooted(fs', p) && Rooted(fs, p)
      && Ids(fs', f) == Chain(fs, q) && Chain(fs', p) == Ids(fs, f)
      && f !in Chain(fs', p)
  {
    var fs', p := MovedUnder(fs, f, q), fs[f].parent.value;
    ParentIds(fs, f);
    PlacedDistinct(fs, Ids(fs, f), f);
    LastIsNew(Ids(fs, f), f);
    NotInChain(Ids(fs, p), p, f);
    MovedOutside(fs, f, q, Ids(fs, p), p);
    PlacedIds(fs', Ids(fs, p), p);
    MovedTop(fs, f, q);
    PlacedIds(fs', Chain(fs, q), f);
  }

  /** Moving a folder and moving it back restores every row. */
  lemma MoveAndBack(fs: Folders, f: nat, q: nat)
    requires Indexed(fs) && Rooted(fs, f) && Rooted(fs, q) && !Cyclic(fs, f, q) && fs[f].parent.Some?
    ensures fs[f].parent.value in fs
    ensures MovedUnder(MovedUnder(fs, f, q), f, fs[f].parent.value) == fs
  {
    var fs', p := MovedUnder(fs, f, q), fs[f].parent.value;
    ParentIds(fs, f);
    forall y | y in fs
      ensures MovedUnder(fs', f, p)[y] == fs[y]
    {
      RowBack(fs, f, q, y);
    }
    MoveChangesOnly(fs, f, q, f);
    MoveChangesOnly(fs', f, p, f);
  }

  lemma RowBack(fs: Folders, f: nat, q: nat, y: nat)
    requires Indexed(fs) && Rooted(fs, f) && Rooted(fs, q) && !Cyclic(fs, f, q) && y in fs
    requires fs[f].parent.Some? && fs[f].parent.value in fs
    ensures MovedUnder(MovedUnder(fs, f, q), f, fs[f].parent.value)[y] == fs[y]
  {
    var fs', p := MovedUnder(fs, f, q), fs[f].parent.value;
    MoveChangesOnly(fs, f, q, y);
    MoveChangesOnly(fs', f, p, y);
    if Live(fs, y) {
      PathBack(fs, f, q, y);
    }
  }

  lemma PathBack(fs: Folders, f: nat, q: nat, y: nat)
    requires Indexed(fs) && Rooted(fs, f) && Rooted(fs, q) && !Cyclic(fs, f, q) && Live(fs, y)
    requires fs[f].parent.Some? && fs[f].parent.value in fs
    ensures MovedUnder(MovedUnder(fs, f, q), f, fs[f].parent.value)[y].path == fs[y].path
  {
    var fs', p := MovedUnder(fs, f, q), fs[f].parent.value;
    MoveKeepsIndexed(fs, f, q);
    ChainsAfterMove(fs, f, q);
    MovedRow(fs, f, q, y);
    MovedRow(fs', f, p, y);
    assert RowOk(fs, y);
    NewIdsBack(fs, fs', f, q, p, y);
  }

  lemma NewIdsBack(fs: Folders, fs': Folders, f: nat, q: nat, p: nat, y: nat)
    requires Indexed(fs) && Rooted(fs, f) && Rooted(fs, q) && Live(fs, y)
    requires f in fs' && p in fs' && y in fs' && Ids(fs', y) == NewIds(fs, f, q, y)
    requires Ids(fs', f) == Chain(fs, q) && Chain(fs', p) == Ids(fs, f) && f !in Chain(fs', p)
    ensures NewIds(fs', f, p, y) == Ids(fs, y)
  {
    if y == f {
      assert Chain(fs', f)[|Ids(fs', f)|] == f;
    } else {
      if Chain(fs, q) + [f] <= Ids(fs, y) {
        NoStrayRow(fs, f, q, y);
      }
      GraftBack(Chain(fs, f), Chain(fs, q) + [f], Ids(fs, y));
    }
  }
}
