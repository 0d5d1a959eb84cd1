/**
 Effective permissions: the query that parses a folder's path, against the recursion over parent
 pointers that it stands for, and how far each change of the tables can be felt.
 */
module Access {
  import opened Wrappers
  import opened Paths
  import opened Tables
  import opened Permissions
  import opened Tree
  import opened Move

  function GrantOf(grants: Grants, u: nat, x: nat): Mask {
    if (u, x) in grants then grants[(u, x)] else {}
  }

  function LinkOf(fs: Folders, grants: Grants, u: nat, x: nat): Link {
    Link(GrantOf(grants, u, x), x in fs && fs[x].inherits)
  }

  function Links(fs: Folders, grants: Grants, u: nat, c: seq<nat>): seq<Link> {
    seq(|c|, i requires 0 <= i < |c| => LinkOf(fs, grants, u, c[i]))
  }

  /** The rows that `folder_id IN (c) AND deleted_at IS NULL` returns, each folder once. */
  function LiveOf(fs: Folders, c: seq<nat>): set<nat> { set id | id in c && Live(fs, id) }

  /** What GetUserEffectivePermissions computes; None is its error. */
  function Effective(fs: Folders, grants: Grants, u: nat, x: nat): Option<Mask> {
    if x !in fs || |LiveOf(fs, Chain(fs, x))| < |Chain(fs, x)| then None
    else Some(Fold(Links(fs, grants, u, Chain(fs, x))))
  }

  /** What it stands for: permissions flow down parent pointers, cut to Admin at a break. */
  ghost function Eff(fs: Folders, grants: Grants, u: nat, x: nat): Mask
    requires Rooted(fs, x)
    decreases |Ids(fs, x)|
  {
    match fs[x].parent
    case None => GrantOf(grants, u, x)
    case Some(p) =>
      ParentIds(fs, x);
      var above := Eff(fs, grants, u, p);
      (if fs[x].inherits then above else above * PERM_ADMIN) + GrantOf(grants, u, x)
  }

  // ----- the query is the recursion -----

  lemma {:induction false} CountOfChain(fs: Folders, c: seq<nat>)
    ensures |LiveOf(fs, c)| <= |c|
    ensures |LiveOf(fs, c)| == |c| <==> Distinct(c) && forall x | x in c :: Live(fs, x)
  {
    if c != [] {
      var x, front := Last(c), Front(c);
      CountOfChain(fs, front);
      assert c == front + [x];
      assert LiveOf(fs, c) == LiveOf(fs, front) + (if Live(fs, x) then {x} else {});
      if x in front {
        var i :| 0 <= i < |front| && front[i] == x;
        assert c[i] == c[|c| - 1];
        assert LiveOf(fs, c) == LiveOf(fs, front);
      } else {
        assert Distinct(c) <==> Distinct(front) by {
          if Distinct(c) {
            assert forall i, j | 0 <= i < j < |front| :: front[i] == c[i] && front[j] == c[j];
          }
        }
      }
    }
  }

  lemma LinksSnoc(fs: Folders, grants: Grants, u: nat, ids: seq<nat>, x: nat)
    ensures Fold(Links(fs, grants, u, ids + [x]))
         == Step(Fold(Links(fs, grants, u, ids)), LinkOf(fs, grants, u, x))
  {
    assert Front(Links(fs, grants, u, ids + [x])) == Links(fs, grants, u, ids);
  }

  lemma {:induction false} EffIsFold(fs: Folders, grants: Grants, u: nat, x: nat)
    requires Rooted(fs, x)
    ensures Eff(fs, grants, u, x) == Fold(Links(fs, grants, u, Chain(fs, x)))
    decreases |Ids(fs, x)|
  {
    LinksSnoc(fs, grants, u, Ids(fs, x), x);
    if fs[x].parent.Some? {
      ParentIds(fs, x);
      EffIsFold(fs, grants, u, fs[x].parent.value);
    } else {
      assert Links(fs, grants, u, []) == [];
    }
  }

  /** Along a placed chain the query folds the chain. */
  lemma QueryOnChain(fs: Folders, grants: Grants, u: nat, ids: seq<nat>, x: nat)
    requires Placed(fs, ids, x)
    ensures Effective(fs, grants, u, x) == Some(Fold(Links(fs, grants, u, ids + [x])))
  {
    PlacedIds(fs, ids, x);
    CountOfChain(fs, ids + [x]);
    PlacedInTable(fs, ids, x);
    PlacedDistinct(fs, ids, x);
  }

  /**
   On a sound index the query answers exactly for the folders whose parent pointers reach the root
   through live folders, and its answer is the recursion over those pointers.
   */
  lemma QueryIsTreeWalk(fs: Folders, grants: Grants, u: nat, x: nat)
    requires Indexed(fs)
    ensures Effective(fs, grants, u, x).Some? <==> ReachesRoot(fs, x)
    ensures ReachesRoot(fs, x) <==> Rooted(fs, x)
    ensures Rooted(fs, x) ==> Effective(fs, grants, u, x) == Some(Eff(fs, grants, u, x))
  {
    RootedIffAncestry(fs, x);
    if x in fs {
      var c := Chain(fs, x);
      CountOfChain(fs, c);
      if Rooted(fs, x) {
        PlacedInTable(fs, Ids(fs, x), x);
        PlacedDistinct(fs, Ids(fs, x), x);
        EffIsFold(fs, grants, u, x);
      } else if Live(fs, x) {
        assert RowOk(fs, x);
        var i, j :| LoopAt(fs, c, i, j);
        assert !Distinct(c);
      } else {
        assert x in c;
      }
    }
  }

  /** After a move into the own subtree the query fails on all of it, for every user, and only there. */
  lemma CyclicMoveLocksSubtree(fs: Folders, f: nat, q: nat, grants: Grants, u: nat, ids: seq<nat>, y: nat)
    requires Indexed(fs) && Rooted(fs, f) && Rooted(fs, q) && Cyclic(fs, f, q)
    requires Ancestry(fs, ids, y)
    ensures Effective(MovedUnder(fs, f, q), grants, u, y)
         == if f in ids + [y] then None else Effective(fs, grants, u, y)
  {
    var fs' := MovedUnder(fs, f, q);
    AncestryIsPlaced(fs, ids, y);
    if f in ids + [y] {
      CyclicMoveKeepsIndexed(fs, f, q);
      PlacedIds(fs, ids, y);
      RootedAfterCyclicMove(fs, f, q, y);
      QueryIsTreeWalk(fs', grants, u, y);
    } else {
      OutsideMeans(f, ids, y);
      QueryAfterMoveOutside(fs, f, q, grants, u, ids, y);
    }
  }

  /** A move keeps every folder answerable exactly when the target is neither f nor below f. */
  lemma MoveServesAllIff(fs: Folders, f: nat, q: nat, grants: Grants, u: nat, ids: seq<nat>)
    requires Indexed(fs) && Rooted(fs, f) && Ancestry(fs, ids, q)
    ensures (forall y | ReachesRoot(fs, y) :: Effective(MovedUnder(fs, f, q), grants, u, y).Some?)
       <==> f !in ids + [q]
  {
    AncestryIsPlaced(fs, ids, q);
    PlacedIds(fs, ids, q);
    RootedIffAncestry(fs, f);
    if Cyclic(fs, f, q) {
      CyclicMoveKeepsIndexed(fs, f, q);
      RootedAfterCyclicMove(fs, f, q, f);
      QueryIsTreeWalk(MovedUnder(fs, f, q), grants, u, f);
    } else {
      MoveKeepsIndexed(fs, f, q);
      forall y | ReachesRoot(fs, y)
        ensures Effective(MovedUnder(fs, f, q), grants, u, y).Some?
      {
        RootedIffAncestry(fs, y);
        QueryIsTreeWalk(MovedUnder(fs, f, q), grants, u, y);
      }
    }
  }

  lemma OutsideMeans(f: nat, ids: seq<nat>, y: nat)
    ensures f !in ids + [y] <==> f !in ids && f != y
  {
  }

  lemma QueryAfterMoveOutside(fs: Folders, f: nat, q: nat, grants: Grants, u: nat, ids: seq<nat>, y: nat)
    requires Indexed(fs) && Rooted(fs, f) && Rooted(fs, q)
    requires Placed(fs, ids, y) && f !in ids && y != f
    ensures Effective(MovedUnder(fs, f, q), grants, u, y) == Effective(fs, grants, u, y)
  {
    MovedOutside(fs, f, q, ids, y);
    QueryOnChain(fs, grants, u, ids, y);
    QueryOnChain(MovedUnder(fs, f, q), grants, u, ids, y);
    LinksAfterMove(fs, f, q, grants, u, ids + [y]);
  }

  // ----- what a good move changes -----

  /** Some folder from position k of the chain on breaks inheritance. */
  predicate BreaksFrom(fs: Folders, c: seq<nat>, k: nat) {
    exists i :: k <= i < |c| && c[i] in fs && !fs[c[i]].inherits
  }

  lemma LinksTail(fs: Folders, grants: Grants, u: nat, a: seq<nat>, t: seq<nat>)
    ensures Links(fs, grants, u, a + t) == Links(fs, grants, u, a) + Links(fs, grants, u, t)
  {
  }

  lemma BreakInTail(fs: Folders, grants: Grants, u: nat, a: seq<nat>, t: seq<nat>)
    requires BreaksFrom(fs, a + t, |a|)
    ensures HasBreak(Links(fs, grants, u, t))
  {
    var i :| |a| <= i < |a + t| && (a + t)[i] in fs && !fs[(a + t)[i]].inherits;
    assert t[i - |a|] == (a + t)[i];
    assert !Links(fs, grants, u, t)[i - |a|].inherits;
  }

  lemma LinksAfterMove(fs: Folders, f: nat, q: nat, grants: Grants, u: nat, c: seq<nat>)
    requires f in fs && q in fs
    ensures Links(MovedUnder(fs, f, q), grants, u, c) == Links(fs, grants, u, c)
  {
  }

  /** Outside the moved subtree no effective mask changes. */
  lemma MoveKeepsAccessOutside(fs: Folders, f: nat, q: nat, grants: Grants, u: nat, ids: seq<nat>, y: nat)
    requires Indexed(fs) && Rooted(fs, f) && Rooted(fs, q)
    requires Ancestry(fs, ids, y) && f !in ids + [y]
    ensures Effective(fs, grants, u, y).Some?
    ensures Effective(MovedUnder(fs, f, q), grants, u, y) == Effective(fs, grants, u, y)
  {
    AncestryIsPlaced(fs, ids, y);
    OutsideMeans(f, ids, y);
    QueryAfterMoveOutside(fs, f, q, grants, u, ids, y);
    QueryOnChain(fs, grants, u, ids, y);
  }

  lemma QueryFromMiddle(fs: Folders, grants: Grants, u: nat, a: seq<nat>, t: seq<nat>, y: nat)
    requires t != [] && Last(t) == y && Placed(fs, a + Front(t), y)
    ensures Effective(fs, grants, u, y)
         == Some(FoldFrom(Fold(Links(fs, grants, u, a)), Links(fs, grants, u, t)))
  {
    QueryOnChain(fs, grants, u, a + Front(t), y);
    assert a + Front(t) + [y] == a + t;
    LinksTail(fs, grants, u, a, t);
    FoldSplit({}, Links(fs, grants, u, a), Links(fs, grants, u, t));
  }

  /** The part of the chain from f down, y included: t in both trees. */
  lemma ChainFromMoved(fs: Folders, f: nat, q: nat, ids: seq<nat>, y: nat) returns (t: seq<nat>)
    requires Indexed(fs) && Rooted(fs, f) && Rooted(fs, q) && !Cyclic(fs, f, q)
    requires Ancestry(fs, ids, y) && f in ids + [y]
    ensures Ids(fs, f) <= ids && t == ids[|Ids(fs, f)|..] + [y] && Last(t) == y
    ensures Ids(fs, f) + t == ids + [y]
    ensures Placed(fs, Ids(fs, f) + Front(t), y)
    ensures Placed(MovedUnder(fs, f, q), Chain(fs, q) + Front(t), y)
  {
    AncestryIsPlaced(fs, ids, y);
    NewIdsBelow(fs, f, q, ids, y);
    PlacedIds(fs, ids, y);
    RootedAfterMove(fs, f, q, y);
    t := TailOf(Ids(fs, f), ids, y);
  }

  lemma TailOf(a: seq<nat>, ids: seq<nat>, y: nat) returns (t: seq<nat>)
    requires a <= ids
    ensures t == ids[|a|..] + [y] && Front(t) == ids[|a|..] && Last(t) == y
    ensures a + Front(t) == ids && a + t == ids + [y]
  {
    t := ids[|a|..] + [y];
    assert Front(t) == ids[|a|..];
  }

  /** Inside it, the walk from f down goes on from the mask of the target instead of the old parent. */
  lemma MoveRebasesAccess(fs: Folders, f: nat, q: nat, grants: Grants, u: nat, ids: seq<nat>, y: nat)
    requires Indexed(fs) && Rooted(fs, f) && Rooted(fs, q) && !Cyclic(fs, f, q)
    requires Ancestry(fs, ids, y) && f in ids + [y]
    ensures Ids(fs, f) <= ids
    ensures var below := Links(fs, grants, u, ids[|Ids(fs, f)|..] + [y]);
      && Effective(fs, grants, u, y) == Some(FoldFrom(Fold(Links(fs, grants, u, Ids(fs, f))), below))
      && Effective(MovedUnder(fs, f, q), grants, u, y) == Some(FoldFrom(Eff(fs, grants, u, q), below))
  {
    var t := ChainFromMoved(fs, f, q, ids, y);
    QueryFromMiddle(fs, grants, u, Ids(fs, f), t, y);
    QueryFromMiddle(MovedUnder(fs, f, q), grants, u, Chain(fs, q), t, y);
    LinksAfterMove(fs, f, q, grants, u, t);
    LinksAfterMove(fs, f, q, grants, u, Chain(fs, q));
    EffIsFold(fs, grants, u, q);
  }

  lemma QueriesBelowBreak(
    fs: Folders, fs': Folders, grants: Grants, grants': Grants, u: nat,
    a: seq<nat>, a': seq<nat>, t: seq<nat>, y: nat)
    requires t != [] && Last(t) == y && Placed(fs, a + Front(t), y) && Placed(fs', a' + Front(t), y)
    requires Links(fs', grants', u, t) == Links(fs, grants, u, t) && HasBreak(Links(fs, grants, u, t))
    ensures var old_, new_ := Effective(fs, grants, u, y), Effective(fs', grants', u, y);
      old_.Some? && new_.Some? && SameButAdmin(old_.value, new_.value)
  {
    QueryFromMiddle(fs, grants, u, a, t, y);
    QueryFromMiddle(fs', grants', u, a', t, y);
    BreakHidesAbove(
      Fold(Links(fs, grants, u, a)), Fold(Links(fs', grants', u, a')), Links(fs, grants, u, t));
  }

  /** A break between f (inclusive) and y shields y from the move, but for the Admin bit. */
  lemma BreakShieldsFromMove(fs: Folders, f: nat, q: nat, grants: Grants, u: nat, ids: seq<nat>, y: nat)
    requires Indexed(fs) && Rooted(fs, f) && Rooted(fs, q) && !Cyclic(fs, f, q)
    requires Ancestry(fs, ids, y) && f in ids + [y] && BreaksFrom(fs, ids + [y], |Ids(fs, f)|)
    ensures var old_, new_ := Effective(fs, grants, u, y), Effective(MovedUnder(fs, f, q), grants, u, y);
      old_.Some? && new_.Some? && SameButAdmin(old_.value, new_.value)
  {
    var t := ChainFromMoved(fs, f, q, ids, y);
    BreakInTail(fs, grants, u, Ids(fs, f), t);
    LinksAfterMove(fs, f, q, grants, u, t);
    QueriesBelowBreak(fs, MovedUnder(fs, f, q), grants, grants, u, Ids(fs, f), Chain(fs, q), t, y);
  }

  // ----- what a grant changes -----

  /** The upsert of SetUserPermission. */
  function Granted(grants: Grants, u: nat, f: nat, mask: Mask): Grants { grants[(u, f) := mask] }

  lemma GrantKeepsOthers(
    fs: Folders, grants: Grants, u: nat, f: nat, mask: Mask, v: nat, ids: seq<nat>, y: nat)
    requires Indexed(fs) && Ancestry(fs, ids, y) && (v != u || f !in ids + [y])
    ensures Effective(fs, Granted(grants, u, f, mask), v, y) == Effective(fs, grants, v, y)
  {
    AncestryIsPlaced(fs, ids, y);
    PlacedIds(fs, ids, y);
    assert Links(fs, Granted(grants, u, f, mask), v, ids + [y]) == Links(fs, grants, v, ids + [y]);
  }

  /** Below a break after f only the Admin bit can follow the grant. */
  lemma BreakShieldsFromGrant(
    fs: Folders, grants: Grants, u: nat, f: nat, mask: Mask, ids: seq<nat>, y: nat)
    requires Indexed(fs) && Rooted(fs, f) && Ancestry(fs, ids, y) && f in ids
    requires BreaksFrom(fs, ids + [y], |Chain(fs, f)|)
    ensures var old_, new_ := Effective(fs, grants, u, y), Effective(fs, Granted(grants, u, f, mask), u, y);
      old_.Some? && new_.Some? && SameButAdmin(old_.value, new_.value)
  {
    var grants', top := Granted(grants, u, f, mask), Chain(fs, f);
    AncestryIsPlaced(fs, ids, y);
    AncestorPrefix(fs, Ids(fs, f), f, ids, y);
    var t := ids[|top|..] + [y];
    NotBelowItself(fs, f, ids, y);
    assert Front(t) == ids[|top|..] && ids == top + Front(t) && ids + [y] == top + t;
    assert Links(fs, grants', u, t) == Links(fs, grants, u, t);
    BreakInTail(fs, grants, u, top, t);
    QueriesBelowBreak(fs, fs, grants, grants', u, top, top, t, y);
  }

  lemma NotBelowItself(fs: Folders, f: nat, ids: seq<nat>, y: nat)
    requires Rooted(fs, f) && Placed(fs, ids, y) && Chain(fs, f) <= ids
    ensures f !in ids[|Chain(fs, f)|..] + [y]
  {
    PlacedDistinct(fs, ids, y);
    var n, t := |Chain(fs, f)|, ids[|Chain(fs, f)|..] + [y];
    assert (ids + [y])[n - 1] == Chain(fs, f)[n - 1] == f;
    assert forall k | 0 <= k < |t| :: t[k] == (ids + [y])[k + n];
  }

  /** Enlarging a mask removes no bit from anybody, anywhere. */
  lemma GrantMonotone(fs: Folders, grants: Grants, u: nat, f: nat, mask: Mask, v: nat, y: nat)
    requires GrantOf(grants, u, f) <= mask
    ensures var old_, new_ := Effective(fs, grants, v, y), Effective(fs, Granted(grants, u, f, mask), v, y);
      && old_.Some? == new_.Some?
      && (old_.Some? ==> old_.value <= new_.value)
  {
    if y in fs {
      var c, grants' := Chain(fs, y), Granted(grants, u, f, mask);
      forall i | 0 <= i < |c|
        ensures GrantOf(grants, v, c[i]) <= GrantOf(grants', v, c[i])
      {
      }
      FoldMonotone({}, {}, Links(fs, grants, v, c), Links(fs, grants', v, c));
    }
  }

  // ----- what creating a folder changes -----

  /**
   The grants after CreateFolder, whose table fs already holds the new folder n: an explicit copy for
   the creator if n does not inherit.
   */
  function GrantsAfterCreate(fs: Folders, grants: Grants, n: nat, p: nat, inherits: bool, u: nat): Grants {
    var eff := Effective(fs, grants, u, p);
    if inherits || eff.None? then grants else Granted(grants, u, n, eff.value)
  }

  lemma {:induction false} LinksBeforeCreate(
    fs: Folders, fs': Folders, grants: Grants, n: nat, p: nat, inherits: bool, u: nat, v: nat, ids: seq<nat>, y: nat)
    requires n !in fs && Placed(fs, ids, y)
    requires forall z | z in fs :: z in fs' && fs'[z] == fs[z]
    ensures Links(fs', GrantsAfterCreate(fs', grants, n, p, inherits, u), v, ids + [y])
         == Links(fs, grants, v, ids + [y])
  {
    PlacedInTable(fs, ids, y);
    assert forall k | 0 <= k < |ids + [y]| :: (ids + [y])[k] in ids + [y];
  }

  /** No existing folder's effective mask changes when a folder is created. */
  lemma CreateKeepsAccess(
    fs: Folders, grants: Grants, n: nat, name: string, p: nat, inherits: bool, retention: nat, u: nat, v: nat,
    y: nat)
    requires Indexed(fs) && n !in fs && Rooted(fs, p) && y != n
    ensures var fs' := Created(fs, n, name, p, ChildPath(fs, p), inherits, retention);
      Effective(fs', GrantsAfterCreate(fs', grants, n, p, inherits, u), v, y) == Effective(fs, grants, v, y)
  {
    var fs' := Created(fs, n, name, p, ChildPath(fs, p), inherits, retention);
    var grants' := GrantsAfterCreate(fs', grants, n, p, inherits, u);
    CreateKeepsIndexed(fs, n, name, p, inherits, retention);
    QueryIsTreeWalk(fs, grants, v, y);
    QueryIsTreeWalk(fs', grants', v, y);
    if Rooted(fs, y) {
      EffIsFold(fs, grants, v, y);
      EffIsFold(fs', grants', v, y);
      LinksBeforeCreate(fs, fs', grants, n, p, inherits, u, v, Ids(fs, y), y);
    }
  }

  /** The new folder: its creator keeps the parent's mask, anybody else keeps it or its Admin bit. */
  lemma {:induction false} CreateSnapshotsAccess(
    fs: Folders, grants: Grants, n: nat, name: string, p: nat, inherits: bool, retention: nat, u: nat, v: nat)
    requires Indexed(fs) && n !in fs && Rooted(fs, p)
    requires forall w: nat :: (w, n) !in grants
    ensures var fs' := Created(fs, n, name, p, ChildPath(fs, p), inherits, retention);
      Effective(fs', GrantsAfterCreate(fs', grants, n, p, inherits, u), v, n) ==
        Some(if inherits || v == u then Eff(fs, grants, v, p) else Eff(fs, grants, v, p) * PERM_ADMIN)
  {
    var fs' := Created(fs, n, name, p, ChildPath(fs, p), inherits, retention);
    var grants' := GrantsAfterCreate(fs', grants, n, p, inherits, u);
    CreateKeepsIndexed(fs, n, name, p, inherits, retention);
    QueryIsTreeWalk(fs, grants, u, p);
    ParentReadsTheSame(fs, grants, n, name, p, inherits, retention, u);
    QueryOnChain(fs', grants', v, Chain(fs, p), n);
    EffIsFold(fs, grants, v, p);
    LinksSnoc(fs', grants', v, Chain(fs, p), n);
    LinksBeforeCreate(fs, fs', grants, n, p, inherits, u, v, Ids(fs, p), p);
    SnapshotStep(fs, fs', grants, n, p, inherits, u, v);
  }

  lemma SnapshotStep(fs: Folders, fs': Folders, grants: Grants, n: nat, p: nat, inherits: bool, u: nat, v: nat)
    requires Rooted(fs, p) && n in fs' && fs'[n].inherits == inherits && (v, n) !in grants
    requires Effective(fs', grants, u, p) == Some(Eff(fs, grants, u, p))
    ensures Step(Eff(fs, grants, v, p), LinkOf(fs', GrantsAfterCreate(fs', grants, n, p, inherits, u), v, n))
         == if inherits || v == u then Eff(fs, grants, v, p) else Eff(fs, grants, v, p) * PERM_ADMIN
  {
  }

  /** The creator's mask on the parent reads the same before and after the insert. */
  lemma ParentReadsTheSame(
    fs: Folders, grants: Grants, n: nat, name: string, p: nat, inherits: bool, retention: nat, u: nat)
    requires Indexed(fs) && n !in fs && Rooted(fs, p)
    ensures Effective(Created(fs, n, name, p, ChildPath(fs, p), inherits, retention), grants, u, p)
         == Effective(fs, grants, u, p)
  {
    var fs' := Created(fs, n, name, p, ChildPath(fs, p), inherits, retention);
    PlacedInTable(fs, Ids(fs, p), p);
    PlacedFrame(fs, fs', Ids(fs, p), p);
    QueryOnChain(fs, grants, u, Ids(fs, p), p);
    QueryOnChain(fs', grants, u, Ids(fs, p), p);
    LinksBeforeCreate(fs, fs', grants, n, p, true, u, u, Ids(fs, p), p);
  }
}
