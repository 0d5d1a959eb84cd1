/** The version rows of one file against the history of its uploads. */
module Histories {
  import opened Wrappers
  import opened Paths
  import opened Tables
  import opened Cas
  import opened VersionRows
  import opened FileServices

  datatype Upload = Upload(version: nat, content: Bytes)

  /** All successful uploads of a file, oldest first, and how many of the last ones should be stored. */
  datatype History = History(uploads: seq<Upload>, kept: nat)

  function VersionIds(h: History): seq<nat> {
    seq(|h.uploads|, j requires 0 <= j < |h.uploads| => h.uploads[j].version)
  }

  /** After one more upload under a folder retention of n, where 0 keeps everything. */
  function Extended(h: History, up: Upload, n: nat): History {
    History(h.uploads + [up], if n == 0 || h.kept + 1 <= n then h.kept + 1 else n)
  }

  /** The row of the upload with index j among all uploads of its file. */
  ghost predicate Named(digest: Bytes -> Bytes, vs: Versions, ups: seq<Upload>, j: nat)
    requires j < |ups|
  {
    && ups[j].version in vs
    && vs[ups[j].version].name == VersionName(j + 1)
    && vs[ups[j].version].hash == digest(ups[j].content)
  }

  /**
   The stored rows of file i are its last `kept` uploads, the j-th of all uploads being named v(j+1);
   the file points at the last one.
   */
  ghost predicate Recorded(
    digest: Bytes -> Bytes, vs: Versions, nextVersion: nat, h: History, i: nat, row: File)
  {
    && 1 <= h.kept <= |h.uploads|
    && StoresFrom(vs, i, VersionIds(h), |h.uploads| - h.kept)
    && (forall j | 0 <= j < |h.uploads| :: 1 <= h.uploads[j].version < nextVersion)
    && (forall j | |h.uploads| - h.kept <= j < |h.uploads| :: Named(digest, vs, h.uploads, j))
    && row.version == Some(Last(h.uploads).version)
    && row.storagePath == LocatorOf(digest, Last(h.uploads).content)
    && row.location == SCHEME
  }

  /** The next number is one more than the number of uploads so far, whatever was pruned. */
  lemma NextNumberCounts(
    digest: Bytes -> Bytes, vs: Versions, nextVersion: nat, h: History, i: nat, row: File)
    requires Recorded(digest, vs, nextVersion, h, i, row)
    ensures NextNumber(vs, i) == |h.uploads| + 1
  {
    var k, lo, ids := |h.uploads|, |h.uploads| - h.kept, VersionIds(h);
    forall v | v in VersionsOf(vs, i)
      ensures VersionNumber(vs[v].name).Some? && VersionNumber(vs[v].name).value <= k
    {
      var n :| 0 <= n < |ids[lo..]| && ids[lo..][n] == v;
      assert ids[lo + n] == v && Named(digest, vs, h.uploads, lo + n);
      NumberOfName(lo + n + 1);
    }
    assert ids[lo..][k - 1 - lo] == ids[k - 1];
    assert ids[k - 1] in VersionsOf(vs, i);
    assert Named(digest, vs, h.uploads, k - 1);
    NumberOfName(k);
    NextNumberIs(vs, i, k);
  }

  /** Rows of other files, and columns other than the pointer, do not matter. */
  lemma {:induction false} RecordedFrame(
    digest: Bytes -> Bytes, vs: Versions, vs': Versions, nextVersion: nat, nextVersion': nat,
    h: History, i: nat, row: File, row': File)
    requires Recorded(digest, vs, nextVersion, h, i, row) && nextVersion <= nextVersion'
    requires VersionsOf(vs', i) == VersionsOf(vs, i)
    requires forall v | v in VersionsOf(vs, i) :: vs'[v] == vs[v]
    requires row'.version == row.version && row'.storagePath == row.storagePath && row'.location == row.location
    ensures Recorded(digest, vs', nextVersion', h, i, row')
  {
    HoldsFrame(vs, vs', i, VersionIds(h), |h.uploads| - h.kept);
    forall j | |h.uploads| - h.kept <= j < |h.uploads|
      ensures Named(digest, vs', h.uploads, j)
    {
      HeldRow(vs, i, VersionIds(h), |h.uploads| - h.kept, j);
      HeldRow(vs', i, VersionIds(h), |h.uploads| - h.kept, j);
      assert Named(digest, vs, h.uploads, j);
    }
  }

  lemma HoldsFrame(vs: Versions, vs': Versions, i: nat, ids: seq<nat>, lo: nat)
    requires StoresFrom(vs, i, ids, lo) && VersionsOf(vs', i) == VersionsOf(vs, i)
    ensures StoresFrom(vs', i, ids, lo)
  {
  }

  lemma RecordFirst(
    digest: Bytes -> Bytes, vs: Versions, nextVersion: nat, i: nat, row: File, u: nat, content: Bytes)
    requires nextVersion >= 1 && VersionsOf(vs, i) == {} && nextVersion !in vs
    requires row.version == Some(nextVersion) && row.storagePath == LocatorOf(digest, content) && row.location == SCHEME
    ensures Recorded(
      digest, vs[nextVersion := Version(i, VersionName(1), HashColumn(LocatorOf(digest, content)), u)],
      nextVersion + 1, History([Upload(nextVersion, content)], 1), i, row)
  {
    HashOfLocator(digest, content);
    var h := History([Upload(nextVersion, content)], 1);
    var vs' := vs[nextVersion := Version(i, VersionName(1), HashColumn(LocatorOf(digest, content)), u)];
    assert VersionIds(h)[0..] == [nextVersion];
    forall v
      ensures v in VersionsOf(vs', i) <==> v in VersionIds(h)[0..]
    {
      assert v in VersionsOf(vs, i) || v == nextVersion || v !in VersionsOf(vs', i);
    }
  }

  /** The rows right after the insert and before pruning. */
  lemma {:induction false} InsertHolds(vs: Versions, i: nat, ids: seq<nat>, lo: nat, v: nat, row: Version)
    requires StoresFrom(vs, i, ids, lo) && row.file == i && v !in vs && forall j | 0 <= j < |ids| :: ids[j] < v
    ensures StoresFrom(vs[v := row], i, ids + [v], lo)
  {
    assert (ids + [v])[lo..] == ids[lo..] + [v];
    forall w
      ensures w in VersionsOf(vs[v := row], i) <==> w in ids[lo..] + [v]
    {
      assert w in VersionsOf(vs[v := row], i) <==> w in VersionsOf(vs, i) || w == v;
    }
  }

  lemma HeldRow(vs: Versions, i: nat, ids: seq<nat>, lo: nat, j: nat)
    requires StoresFrom(vs, i, ids, lo) && lo <= j < |ids|
    ensures ids[j] in VersionsOf(vs, i)
  {
  }

  /** One more upload, with pruning, keeps the rows in step with the history. */
  lemma RecordNext(
    digest: Bytes -> Bytes, vs: Versions, nextVersion: nat, h: History, i: nat, row: File, row': File,
    version: Version, content: Bytes, n: nat)
    requires Recorded(digest, vs, nextVersion, h, i, row) && nextVersion !in vs
    requires version.file == i && version.name == VersionName(|h.uploads| + 1) && version.hash == digest(content)
    requires row'.version == Some(nextVersion) && row'.location == SCHEME
    requires row'.storagePath == LocatorOf(digest, content)
    ensures Recorded(
      digest, VersionsAfterUpload(vs, nextVersion, version, n), nextVersion + 1,
      Extended(h, Upload(nextVersion, content), n), i, row')
  {
    var h' := Extended(h, Upload(nextVersion, content), n);
    NextHolds(vs, nextVersion, h, i, version, content, n);
    forall j | |h'.uploads| - h'.kept <= j < |h'.uploads|
      ensures Named(digest, VersionsAfterUpload(vs, nextVersion, version, n), h'.uploads, j)
    {
      NextRow(vs, nextVersion, h, i, version, content, n, j);
      if j < |h.uploads| {
        assert Named(digest, vs, h.uploads, j);
      }
    }
  }

  lemma ExtendedIds(h: History, up: Upload, n: nat)
    requires 1 <= h.kept <= |h.uploads|
    ensures VersionIds(Extended(h, up, n)) == VersionIds(h) + [up.version]
    ensures var h' := Extended(h, up, n);
      1 <= h'.kept <= |h'.uploads| && |h'.uploads| - h'.kept >= |h.uploads| - h.kept
  {
  }

  lemma {:induction false} NextHolds(
    vs: Versions, nextVersion: nat, h: History, i: nat, version: Version, content: Bytes, n: nat)
    requires 1 <= h.kept <= |h.uploads| && StoresFrom(vs, i, VersionIds(h), |h.uploads| - h.kept)
    requires nextVersion !in vs && version.file == i
    requires forall j | 0 <= j < |h.uploads| :: h.uploads[j].version < nextVersion
    ensures var h' := Extended(h, Upload(nextVersion, content), n);
      StoresFrom(VersionsAfterUpload(vs, nextVersion, version, n), i, VersionIds(h'), |h'.uploads| - h'.kept)
  {
    var lo := |h.uploads| - h.kept;
    ExtendedIds(h, Upload(nextVersion, content), n);
    InsertHolds(vs, i, VersionIds(h), lo, nextVersion, version);
    if n > 0 {
      PruneKeepsSuffix(vs[nextVersion := version], i, VersionIds(h) + [nextVersion], lo, n);
    }
  }

  /** The rows that stay are unchanged. */
  lemma {:induction false} NextRow(
    vs: Versions, nextVersion: nat, h: History, i: nat, version: Version, content: Bytes, n: nat, j: nat)
    requires 1 <= h.kept <= |h.uploads| && StoresFrom(vs, i, VersionIds(h), |h.uploads| - h.kept)
    requires nextVersion !in vs && version.file == i
    requires forall j | 0 <= j < |h.uploads| :: h.uploads[j].version < nextVersion
    requires var h' := Extended(h, Upload(nextVersion, content), n); |h'.uploads| - h'.kept <= j < |h'.uploads|
    ensures var v := Extended(h, Upload(nextVersion, content), n).uploads[j].version;
      v in VersionsAfterUpload(vs, nextVersion, version, n)
      && VersionsAfterUpload(vs, nextVersion, version, n)[v] == vs[nextVersion := version][v]
    ensures j >= |h.uploads| - h.kept
  {
    var h' := Extended(h, Upload(nextVersion, content), n);
    NextHolds(vs, nextVersion, h, i, version, content, n);
    HeldRow(VersionsAfterUpload(vs, nextVersion, version, n), i, VersionIds(h'), |h'.uploads| - h'.kept, j);
  }

  /** A stored version is found under its id with the bytes' hash; the pointer is the newest of them. */
  lemma StoredVersion(
    digest: Bytes -> Bytes, vs: Versions, nextVersion: nat, h: History, i: nat, row: File, j: nat)
    requires Recorded(digest, vs, nextVersion, h, i, row) && |h.uploads| - h.kept <= j < |h.uploads|
    ensures h.uploads[j].version in vs && vs[h.uploads[j].version].file == i
    ensures UriOf(row.location, Encode(vs[h.uploads[j].version].hash)) == LocatorOf(digest, h.uploads[j].content)
  {
    HeldRow(vs, i, VersionIds(h), |h.uploads| - h.kept, j);
    assert Named(digest, vs, h.uploads, j);
  }

  lemma StoredCount(digest: Bytes -> Bytes, vs: Versions, nextVersion: nat, h: History, i: nat, row: File)
    requires Recorded(digest, vs, nextVersion, h, i, row)
    ensures |VersionsOf(vs, i)| == h.kept
  {
    HeldCount(vs, i, VersionIds(h), |h.uploads| - h.kept);
  }

  /** What Recorded says about the rows themselves. */
  lemma SuffixStored(digest: Bytes -> Bytes, vs: Versions, nextVersion: nat, h: History, i: nat, row: File)
    requires Recorded(digest, vs, nextVersion, h, i, row)
    ensures |VersionsOf(vs, i)| == h.kept
    ensures forall v :: v in VersionsOf(vs, i) <==> v in VersionIds(h)[|h.uploads| - h.kept..]
    ensures forall j | |h.uploads| - h.kept <= j < |h.uploads| ::
              h.uploads[j].version in vs && vs[h.uploads[j].version].name == VersionName(j + 1)
    ensures Last(h.uploads).version in VersionsOf(vs, i)
  {
    StoredCount(digest, vs, nextVersion, h, i, row);
    forall j | |h.uploads| - h.kept <= j < |h.uploads|
      ensures h.uploads[j].version in vs && vs[h.uploads[j].version].name == VersionName(j + 1)
    {
      assert Named(digest, vs, h.uploads, j);
    }
    HeldRow(vs, i, VersionIds(h), |h.uploads| - h.kept, |h.uploads| - 1);
  }

  /** The position of a stored version among the uploads of its file. */
  lemma PositionOf(
    digest: Bytes -> Bytes, vs: Versions, nextVersion: nat, h: History, i: nat, row: File, v: nat) returns (j: nat)
    requires Recorded(digest, vs, nextVersion, h, i, row) && v in VersionsOf(vs, i)
    ensures |h.uploads| - h.kept <= j < |h.uploads|
    ensures h.uploads[j].version == v && v in vs && vs[v].name == VersionName(j + 1)
  {
    var lo := |h.uploads| - h.kept;
    var k :| 0 <= k < |VersionIds(h)[lo..]| && VersionIds(h)[lo..][k] == v;
    j := lo + k;
    assert VersionIds(h)[j] == v;
    assert Named(digest, vs, h.uploads, j);
  }

  /** Two rows of one file with the same name are the same row, even if one was stored only earlier. */
  lemma SameNameSameRow(
    digest: Bytes -> Bytes, i: nat, vs: Versions, next: nat, h: History, row: File, a: nat,
    vs': Versions, next': nat, h': History, row': File, b: nat)
    requires Recorded(digest, vs, next, h, i, row) && a in VersionsOf(vs, i)
    requires Recorded(digest, vs', next', h', i, row') && b in VersionsOf(vs', i)
    requires h.uploads <= h'.uploads && vs[a].name == vs'[b].name
    ensures a == b
  {
    var j := PositionOf(digest, vs, next, h, i, row, a);
    var k := PositionOf(digest, vs', next', h', i, row', b);
    NumberOfName(j + 1);
    NumberOfName(k + 1);
    assert h'.uploads[j] == h.uploads[j];
  }

  /** A stored version stands at one position only. */
  lemma StoredOnce(
    digest: Bytes -> Bytes, vs: Versions, nextVersion: nat, h: History, i: nat, row: File, j: nat)
    requires Recorded(digest, vs, nextVersion, h, i, row)
    requires j < |h.uploads| && h.uploads[j].version in VersionsOf(vs, i)
    ensures |h.uploads| - h.kept <= j
  {
    var k := PositionOf(digest, vs, nextVersion, h, i, row, h.uploads[j].version);
    assert VersionIds(h)[j] == VersionIds(h)[k];
  }
}
