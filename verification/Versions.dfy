/** Version rows: naming, the current pointer, and pruning to the newest N. */
module VersionRows {
  import opened Wrappers
  import opened Paths
  import opened Tables

  function VersionsOf(vs: Versions, file: nat): set<nat> { set v | v in vs && vs[v].file == file }

  function VersionName(n: nat): string { "v" + Str(n) }

  /** Sscanf with "v%d": the number of a version name, None if it does not match. */
  function VersionNumber(name: string): Option<nat> {
    if |name| >= 2 && name[0] == 'v' && IsDigit(name[1]) then Some(Scan(name[1..])) else None
  }

  lemma NumberOfName(n: nat)
    ensures VersionNumber(VersionName(n)) == Some(n)
  {
    ScanStr(n);
    assert VersionName(n)[1..] == Str(n);
  }

  /** Version rows of the file that are newer than v. */
  function Newer(vs: Versions, file: nat, v: nat): set<nat> {
    set w | w in vs && vs[w].file == file && w > v
  }

  /** DeleteOldVersions: of this file only the n newest rows stay. */
  function Pruned(vs: Versions, file: nat, n: nat): Versions {
    map v | v in vs && (vs[v].file != file || |Newer(vs, file, v)| < n) :: vs[v]
  }

  /** max is the largest number among the version names of the file, 0 if there is none. */
  ghost predicate IsMaxNumber(vs: Versions, file: nat, max: nat) {
    && (forall v | v in VersionsOf(vs, file) && VersionNumber(vs[v].name).Some? ::
          VersionNumber(vs[v].name).value <= max)
    && (max == 0 || exists v :: v in VersionsOf(vs, file) && VersionNumber(vs[v].name) == Some(max))
  }

  /** The loop over ListVersions that looks for the largest number. */
  method MaxNumber(vs: Versions, file: nat) returns (max: nat)
    ensures IsMaxNumber(vs, file, max)
  {
    max := 0;
    var todo := VersionsOf(vs, file);
    while todo != {}
      invariant todo <= VersionsOf(vs, file)
      invariant forall v | v in VersionsOf(vs, file) - todo && VersionNumber(vs[v].name).Some? ::
                  VersionNumber(vs[v].name).value <= max
      invariant max == 0 || exists v :: v in VersionsOf(vs, file) && VersionNumber(vs[v].name) == Some(max)
    {
      var v :| v in todo;
      var number := VersionNumber(vs[v].name);
      if number.Some? && number.value > max {
        max := number.value;
      }
      todo := todo - {v};
    }
  }

  method MaxId(ids: set<nat>) returns (m: nat)
    requires ids != {}
    ensures m in ids && forall v | v in ids :: v <= m
  {
    m :| m in ids;
    var todo := ids - {m};
    while todo != {}
      invariant todo <= ids && m in ids
      invariant forall w | w in ids :: w in todo || w <= m
    {
      var v :| v in todo;
      if v > m {
        m := v;
      }
      todo := todo - {v};
    }
  }

  /** `ORDER BY version_id DESC LIMIT n`: the ids to keep. */
  method NewestIds(vs: Versions, file: nat, n: nat) returns (keep: set<nat>)
    ensures keep == set v | v in VersionsOf(vs, file) && |Newer(vs, file, v)| < n
  {
    keep := {};
    var rest := VersionsOf(vs, file);
    while |keep| < n && rest != {}
      invariant keep !! rest && keep + rest == VersionsOf(vs, file)
      invariant forall k, r | k in keep && r in rest :: k > r
      invariant |keep| <= n
      decreases rest
    {
      var m := MaxId(rest);
      keep, rest := keep + {m}, rest - {m};
    }
    forall v | v in VersionsOf(vs, file)
      ensures v in keep <==> |Newer(vs, file, v)| < n
    {
      if v in keep {
        SubsetSize(Newer(vs, file, v), keep - {v});
      } else {
        SubsetSize(keep, Newer(vs, file, v));
      }
    }
  }

  lemma {:induction false} SubsetSize(a: set<nat>, b: set<nat>)
    requires a <= b
    ensures |a| <= |b|
    decreases |a|
  {
    if x :| x in a {
      SubsetSize(a - {x}, b - {x});
    }
  }

  /** A file with versions has a newest one, so pruning to n > 0 rows keeps something. */
  lemma {:induction false} NewestExists(vs: Versions, file: nat, v: nat)
    requires v in VersionsOf(vs, file)
    ensures exists w :: w in VersionsOf(vs, file) && Newer(vs, file, w) == {}
    decreases |Newer(vs, file, v)|
  {
    if w :| w in Newer(vs, file, v) {
      assert Newer(vs, file, w) < Newer(vs, file, v);
      SubsetSize(Newer(vs, file, w), Newer(vs, file, v) - {w});
      NewestExists(vs, file, w);
    }
  }

  lemma {:induction false} NothingKept(vs: Versions, file: nat, n: nat)
    requires n > 0 && forall v | v in VersionsOf(vs, file) :: |Newer(vs, file, v)| >= n
    ensures Pruned(vs, file, n) == vs
  {
    if v :| v in VersionsOf(vs, file) {
      NewestExists(vs, file, v);
      assert false;
    }
    assert forall v | v in vs :: v in VersionsOf(vs, file) || vs[v].file != file;
  }

  // ----- pruning an increasing run of ids -----

  /** ids[lo..] are exactly the version rows of the file, and ids grow. */
  ghost predicate StoresFrom(vs: Versions, file: nat, ids: seq<nat>, lo: nat) {
    && lo <= |ids|
    && (forall i, j | 0 <= i < j < |ids| :: ids[i] < ids[j])
    && (forall v :: v in VersionsOf(vs, file) <==> v in ids[lo..])
  }

  function Elements(ids: seq<nat>): set<nat> { set v | v in ids }

  lemma ElementsSnoc(ids: seq<nat>, last: nat)
    requires last !in ids
    ensures |Elements(ids + [last])| == |Elements(ids)| + 1
  {
    assert Elements(ids + [last]) == Elements(ids) + {last};
  }

  lemma {:induction false} SizeOfIncreasing(ids: seq<nat>)
    requires forall i, j | 0 <= i < j < |ids| :: ids[i] < ids[j]
    ensures |Elements(ids)| == |ids|
  {
    if ids != [] {
      SizeOfIncreasing(Front(ids));
      assert forall k | 0 <= k < |ids| - 1 :: Front(ids)[k] == ids[k] < Last(ids);
      ElementsSnoc(Front(ids), Last(ids));
      assert ids == Front(ids) + [Last(ids)];
    }
  }

  lemma HeldCount(vs: Versions, file: nat, ids: seq<nat>, lo: nat)
    requires StoresFrom(vs, file, ids, lo)
    ensures |VersionsOf(vs, file)| == |ids| - lo
  {
    SizeOfIncreasing(ids[lo..]);
    assert VersionsOf(vs, file) == Elements(ids[lo..]);
  }

  lemma NewerCount(vs: Versions, file: nat, ids: seq<nat>, lo: nat, i: nat)
    requires StoresFrom(vs, file, ids, lo) && lo <= i < |ids|
    ensures |Newer(vs, file, ids[i])| == |ids| - 1 - i
  {
    var later := ids[i + 1..];
    SizeOfIncreasing(later);
    forall v
      ensures v in Newer(vs, file, ids[i]) <==> v in later
    {
      if v in later {
        var k :| 0 <= k < |later| && later[k] == v;
        assert v == ids[i + 1 + k] && ids[lo..][i + 1 + k - lo] == v;
        assert v in VersionsOf(vs, file);
      }
      if v in Newer(vs, file, ids[i]) {
        assert v in VersionsOf(vs, file);
        var k :| 0 <= k < |ids[lo..]| && ids[lo..][k] == v;
        assert ids[lo + k] == v && lo + k > i;
        assert later[lo + k - i - 1] == v;
      }
    }
    assert Newer(vs, file, ids[i]) == Elements(later);
  }

  /** Pruning keeps the last n of them. */
  lemma PruneKeepsSuffix(vs: Versions, file: nat, ids: seq<nat>, lo: nat, n: nat)
    requires StoresFrom(vs, file, ids, lo)
    ensures StoresFrom(Pruned(vs, file, n), file, ids, if |ids| - lo <= n then lo else |ids| - n)
    ensures forall v | v in Pruned(vs, file, n) :: v in vs && Pruned(vs, file, n)[v] == vs[v]
  {
    var lo' := if |ids| - lo <= n then lo else |ids| - n;
    forall v | v in ids[lo'..]
      ensures v in ids[lo..]
    {
      var j :| 0 <= j < |ids[lo'..]| && ids[lo'..][j] == v;
      assert ids[lo..][lo' + j - lo] == v;
    }
    forall v
      ensures v in VersionsOf(Pruned(vs, file, n), file) <==> v in ids[lo'..]
    {
      if v in VersionsOf(vs, file) {
        var k :| 0 <= k < |ids[lo..]| && ids[lo..][k] == v;
        NewerCount(vs, file, ids, lo, lo + k);
        assert ids[lo + k] == v;
        if lo + k >= lo' {
          assert ids[lo'..][lo + k - lo'] == v;
        }
        if v in ids[lo'..] {
          var j :| 0 <= j < |ids[lo'..]| && ids[lo'..][j] == v;
          assert ids[lo' + j] == v;
        }
      }
    }
  }
}
