/** Permission bitmasks, and the root-to-leaf walk that folds them with inheritance breaks. */
module Permissions {
  import opened Paths
  import opened Tables

  const PERM_READ: Mask := {0}
  const PERM_WRITE: Mask := {1}
  const PERM_CREATE: Mask := {2}
  const PERM_DELETE: Mask := {3}
  const PERM_RENAME: Mask := {4}
  const PERM_CREATE_FOLDER: Mask := {16}
  const PERM_MOVE_FOLDER: Mask := {17}
  const PERM_DELETE_FOLDER: Mask := {18}
  const PERM_DEVICE_SETUP: Mask := {26}
  const PERM_ADMIN: Mask := {31}

  predicate Has(mask: Mask, target: Mask) { target <= mask }

  /** CheckPermission on a mask: Admin passes every test. */
  predicate Allows(mask: Mask, target: Mask) { Has(mask, PERM_ADMIN) || Has(mask, target) }

  /** The masks agree on everything but the Admin bit. */
  predicate SameButAdmin(a: Mask, b: Mask) { a - PERM_ADMIN == b - PERM_ADMIN }

  // ----- GeneratePermission -----

  datatype Permission = Permission(mask: Mask, user: nat, folder: nat, permIds: seq<nat>)

  datatype HierarchyEntry = HierarchyEntry(permId: nat, mask: Mask)

  function OrAll(ms: seq<Mask>): Mask {
    if ms == [] then {} else OrAll(Front(ms)) + Last(ms)
  }

  method GeneratePermission(user: nat, folder: nat, hierarchy: seq<HierarchyEntry>) returns (p: Permission)
    ensures p.user == user && p.folder == folder
    ensures p.mask == OrAll(seq(|hierarchy|, i requires 0 <= i < |hierarchy| => hierarchy[i].mask))
    ensures |p.permIds| == |hierarchy| && forall i | 0 <= i < |hierarchy| :: p.permIds[i] == hierarchy[i].permId
  {
    ghost var masks := seq(|hierarchy|, i requires 0 <= i < |hierarchy| => hierarchy[i].mask);
    var mask: Mask, permIds := {}, [];
    for n := 0 to |hierarchy|
      invariant mask == OrAll(masks[..n])
      invariant |permIds| == n && forall i | 0 <= i < n :: permIds[i] == hierarchy[i].permId
    {
      mask, permIds := mask + hierarchy[n].mask, permIds + [hierarchy[n].permId];
      assert Front(masks[..n + 1]) == masks[..n];
    }
    assert masks[..|hierarchy|] == masks;
    p := Permission(mask, user, folder, permIds);
  }

  // ----- the walk -----

  /** What one folder of the chain contributes: the explicit mask, and whether it inherits. */
  datatype Link = Link(mask: Mask, inherits: bool)

  function Step(acc: Mask, l: Link): Mask { (if l.inherits then acc else acc * PERM_ADMIN) + l.mask }

  function FoldFrom(acc: Mask, ls: seq<Link>): Mask {
    if ls == [] then acc else Step(FoldFrom(acc, Front(ls)), Last(ls))
  }

  /** The mask the walk ends with.  A break at the root has nothing to clear. */
  function Fold(ls: seq<Link>): Mask { FoldFrom({}, ls) }

  predicate HasBreak(ls: seq<Link>) { exists i :: 0 <= i < |ls| && !ls[i].inherits }

  function Masks(ls: seq<Link>): seq<Mask> { seq(|ls|, i requires 0 <= i < |ls| => ls[i].mask) }

  lemma {:induction false} FoldSplit(acc: Mask, a: seq<Link>, b: seq<Link>)
    ensures FoldFrom(acc, a + b) == FoldFrom(FoldFrom(acc, a), b)
  {
    if b == [] {
      assert a + b == a;
    } else {
      FoldSplit(acc, a, Front(b));
      assert Front(a + b) == a + Front(b);
    }
  }

  lemma BreakAtEnd(ls: seq<Link>)
    requires ls != []
    ensures HasBreak(ls) <==> HasBreak(Front(ls)) || !Last(ls).inherits
  {
  }

  /** What comes from above is added to the walk below, cut to the Admin bit by any break. */
  lemma {:induction false} FoldFromAbove(acc: Mask, ls: seq<Link>)
    ensures FoldFrom(acc, ls) == (if HasBreak(ls) then acc * PERM_ADMIN else acc) + FoldFrom({}, ls)
  {
    if ls != [] {
      FoldFromAbove(acc, Front(ls));
      BreakAtEnd(ls);
    }
  }

  /** Below a break, nothing above can change any bit but Admin. */
  lemma BreakHidesAbove(acc: Mask, acc': Mask, ls: seq<Link>)
    requires HasBreak(ls)
    ensures SameButAdmin(FoldFrom(acc, ls), FoldFrom(acc', ls))
  {
    FoldFromAbove(acc, ls);
    FoldFromAbove(acc', ls);
  }

  /** A larger start and larger masks never lose a bit. */
  lemma {:induction false} FoldMonotone(acc: Mask, acc': Mask, ls: seq<Link>, ls': seq<Link>)
    requires acc <= acc' && |ls| == |ls'|
    requires forall i | 0 <= i < |ls| :: ls[i].inherits == ls'[i].inherits && ls[i].mask <= ls'[i].mask
    ensures FoldFrom(acc, ls) <= FoldFrom(acc', ls')
  {
    if ls != [] {
      FoldMonotone(acc, acc', Front(ls), Front(ls'));
    }
  }

  // ----- closed form -----

  /** The last index above 0 that breaks inheritance, or 0. */
  function LastBreak(ls: seq<Link>): (b: nat)
    requires ls != []
    ensures b < |ls|
  {
    if |ls| == 1 then 0 else if !Last(ls).inherits then |ls| - 1 else LastBreak(Front(ls))
  }

  lemma {:induction false} OrAllSplit(a: seq<Mask>, b: seq<Mask>)
    ensures OrAll(a + b) == OrAll(a) + OrAll(b)
  {
    if b == [] {
      assert a + b == a;
    } else {
      OrAllSplit(a, Front(b));
      assert Front(a + b) == a + Front(b);
    }
  }

  lemma OrAllFrom(ms: seq<Mask>, b: nat)
    requires b <= |ms|
    ensures OrAll(ms[b..]) <= OrAll(ms)
  {
    OrAllSplit(ms[..b], ms[b..]);
    assert ms == ms[..b] + ms[b..];
  }

  /** The walk is the OR of the masks from the last break on, plus Admin if any folder grants it. */
  lemma {:induction false} FoldClosedForm(ls: seq<Link>)
    requires ls != []
    ensures Fold(ls) == OrAll(Masks(ls)[LastBreak(ls)..]) + OrAll(Masks(ls)) * PERM_ADMIN
  {
    var ms, b := Masks(ls), LastBreak(ls);
    assert Front(ms) == Masks(Front(ls)) && Last(ms) == Last(ls).mask;
    assert Fold(ls) == Step(Fold(Front(ls)), Last(ls));
    assert ms[b..] != [] && Last(ms[b..]) == Last(ms) && Front(ms[b..]) == Front(ms)[b..];
    if |ls| == 1 {
      assert Front(ls) == [] && Front(ms) == [];
      assert Fold([]) == {} && OrAll([]) == {};
    } else {
      FoldClosedForm(Front(ls));
      OrAllFrom(Front(ms), LastBreak(Front(ls)));
      if !Last(ls).inherits {
        assert Front(ms)[b..] == [];
      }
    }
  }

  /** Without a break above index 0 the walk is GeneratePermission's plain OR. */
  lemma FoldWithoutBreak(ls: seq<Link>)
    requires ls != [] && !HasBreak(ls[1..])
    ensures Fold(ls) == OrAll(Masks(ls))
  {
    FoldClosedForm(ls);
    NoBreakAboveRoot(ls);
    assert Masks(ls)[0..] == Masks(ls);
  }

  lemma {:induction false} NoBreakAboveRoot(ls: seq<Link>)
    requires ls != [] && !HasBreak(ls[1..])
    ensures LastBreak(ls) == 0
  {
    if |ls| > 1 {
      assert ls[1..][|ls| - 2] == Last(ls);
      forall i | 0 <= i < |Front(ls)[1..]|
        ensures Front(ls)[1..][i].inherits
      {
        assert ls[1..][i] == Front(ls)[1..][i];
      }
      NoBreakAboveRoot(Front(ls));
    }
  }

  /** The Admin bit of an OR is set exactly when some mask has it. */
  lemma {:induction false} AdminOfAny(ms: seq<Mask>)
    ensures Has(OrAll(ms), PERM_ADMIN) <==> exists i :: 0 <= i < |ms| && Has(ms[i], PERM_ADMIN)
  {
    if ms != [] {
      AdminOfAny(Front(ms));
      assert 31 in OrAll(ms) <==> 31 in OrAll(Front(ms)) || 31 in Last(ms);
      if i :| 0 <= i < |ms| && Has(ms[i], PERM_ADMIN) {
        assert i == |ms| - 1 || Front(ms)[i] == ms[i];
      }
      if i :| 0 <= i < |Front(ms)| && Has(Front(ms)[i], PERM_ADMIN) {
        assert Has(ms[i], PERM_ADMIN);
      }
      assert Last(ms) == ms[|ms| - 1];
    }
  }
}
