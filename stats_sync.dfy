// The periodic statistics import: the server's per-player stat files are
// mirrored into a local directory (fetching only files whose size differs),
// and every `<uuid>.json` file of a known player is flattened into
// (type, key, value) rows upserted into `player_stats`.
module StatsSync {
  import opened Wrappers
  import opened Text
  import opened Db

  /** The `stats` object of a player's file: stat types in order, each with its keys and values in order. */
  type StatsObject = seq<(string, seq<(string, int)>)>

  datatype StatRow = StatRow(statType: string, statKey: string, value: int)

  /** Playtime is tracked by the session tracker, so its stat is the one pair left out. */
  predicate Kept(statType: string, statKey: string)
  {
    !(statType == "minecraft:custom" && statKey == "minecraft:play_time")
  }

  /** The rows of one stat type, in key order. */
  function FlattenType(statType: string, entries: seq<(string, int)>): seq<StatRow>
  {
    if entries == [] then []
    else
      var (key, value) := entries[|entries| - 1];
      FlattenType(statType, entries[..|entries| - 1]) + (if Kept(statType, key) then [StatRow(statType, key, value)] else [])
  }

  /** `flattenStats`: the rows of every type, in type order. */
  function Flatten(stats: StatsObject): seq<StatRow>
  {
    if stats == [] then []
    else Flatten(stats[..|stats| - 1]) + FlattenType(stats[|stats| - 1].0, stats[|stats| - 1].1)
  }

  /** Every pair of the file as a row, the excluded one included. */
  function Entries(stats: StatsObject): set<StatRow>
  {
    set i, j | 0 <= i < |stats| && 0 <= j < |stats[i].1| :: StatRow(stats[i].0, stats[i].1[j].0, stats[i].1[j].1)
  }

  lemma {:induction false} FlattenTypeRows(statType: string, entries: seq<(string, int)>, r: StatRow)
    ensures r in FlattenType(statType, entries) <==>
            r.statType == statType && Kept(statType, r.statKey) && (r.statKey, r.value) in entries
  {
    if entries != [] {
      var init := entries[..|entries| - 1];
      FlattenTypeRows(statType, init, r);
      assert entries == init + [entries[|entries| - 1]];
      assert (r.statKey, r.value) in entries <==> (r.statKey, r.value) in init || (r.statKey, r.value) == entries[|entries| - 1];
    }
  }

  /** A row is emitted exactly when it is a pair of the file other than the playtime stat, with its value unchanged. */
  lemma {:induction false} FlattenRows(stats: StatsObject, r: StatRow)
    ensures r in Flatten(stats) <==> r in Entries(stats) && Kept(r.statType, r.statKey)
  {
    if stats != [] {
      var n := |stats| - 1;
      var init := stats[..n];
      FlattenRows(init, r);
      FlattenTypeRows(stats[n].0, stats[n].1, r);
      EntriesStep(stats, r);
    }
  }

  /** The pairs of a file are those of all its types but the last, and those of the last. */
  lemma EntriesStep(stats: StatsObject, r: StatRow)
    requires stats != []
    ensures var n := |stats| - 1;
            r in Entries(stats) <==> r in Entries(stats[..n]) || (r.statType == stats[n].0 && (r.statKey, r.value) in stats[n].1)
  {
    var n := |stats| - 1;
    var init := stats[..n];
    if r in Entries(stats) {
      var i, j :| 0 <= i < |stats| && 0 <= j < |stats[i].1| && r == StatRow(stats[i].0, stats[i].1[j].0, stats[i].1[j].1);
      if i < n {
        assert init[i] == stats[i];
        assert r in Entries(init);
      } else {
        assert stats[n].1[j] == (r.statKey, r.value);
      }
    }
    if r in Entries(init) {
      var i, j :| 0 <= i < |init| && 0 <= j < |init[i].1| && r == StatRow(init[i].0, init[i].1[j].0, init[i].1[j].1);
      assert init[i] == stats[i];
    }
    if r.statType == stats[n].0 && (r.statKey, r.value) in stats[n].1 {
      var j :| 0 <= j < |stats[n].1| && stats[n].1[j] == (r.statKey, r.value);
      assert r == StatRow(stats[n].0, stats[n].1[j].0, stats[n].1[j].1);
    }
  }

  /** Flattening keeps the file's order: the rows of earlier types come first. */
  lemma {:induction false} FlattenAppends(stats: StatsObject, more: StatsObject)
    ensures Flatten(stats + more) == Flatten(stats) + Flatten(more)
    decreases |more|
  {
    if more == [] {
      assert stats + more == stats;
    } else {
      var n := |more| - 1;
      var all, front, last := stats + more, stats + more[..n], more[n];
      assert all[..|all| - 1] == front && all[|all| - 1] == last;
      FlattenAppends(stats, more[..n]);
      var tail := FlattenType(last.0, last.1);
      assert Flatten(all) == Flatten(front) + tail;
      assert Flatten(more) == Flatten(more[..n]) + tail;
      assert (Flatten(stats) + Flatten(more[..n])) + tail == Flatten(stats) + (Flatten(more[..n]) + tail);
    }
  }

  /** `flattenStats` as written: nested loops pushing into `flat`. */
  method FlattenStats(statsObj: StatsObject) returns (flat: seq<StatRow>)
    ensures flat == Flatten(statsObj)
  {
    flat := [];
    var i := 0;
    while i < |statsObj|
      invariant 0 <= i <= |statsObj|
      invariant flat == Flatten(statsObj[..i])
    {
      var (statType, entries) := statsObj[i];
      var j := 0;
      while j < |entries|
        invariant 0 <= j <= |entries|
        invariant flat == Flatten(statsObj[..i]) + FlattenType(statType, entries[..j])
      {
        assert entries[..j + 1][..j] == entries[..j];
        var (key, value) := entries[j];
        if Kept(statType, key) {
          flat := flat + [StatRow(statType, key, value)];
        }
        j := j + 1;
      }
      assert entries[..j] == entries;
      assert statsObj[..i + 1][..i] == statsObj[..i];
      i := i + 1;
    }
    assert statsObj[..i] == statsObj;
  }

  /** An entry of the remote directory listing. */
  datatype RemoteFile = RemoteFile(name: string, size: int)

  /** A remote file is fetched unless a local file of the same name has the same size. */
  predicate NeedsDownload(f: RemoteFile, local: map<string, int>)
  {
    !(f.name in local && local[f.name] == f.size)
  }

  /** The local directory (file name to size) and the download count after mirroring `files` in order. */
  function Mirrored(files: seq<RemoteFile>, local: map<string, int>): (map<string, int>, nat)
  {
    if files == [] then (local, 0)
    else
      var (dir, count) := Mirrored(files[..|files| - 1], local);
      var f := files[|files| - 1];
      if NeedsDownload(f, dir) then (dir[f.name := f.size], count + 1) else (dir, count)
  }

  /** The count never exceeds the listing. */
  lemma {:induction false} MirrorCountBounded(files: seq<RemoteFile>, local: map<string, int>)
    ensures Mirrored(files, local).1 <= |files|
  {
    if files != [] {
      MirrorCountBounded(files[..|files| - 1], local);
    }
  }

  function Names(files: seq<RemoteFile>): set<string>
  {
    set i | 0 <= i < |files| :: files[i].name
  }

  /** The directory gains exactly the listed names, and files that are not listed keep their size. */
  lemma {:induction false} MirrorKeepsOthers(files: seq<RemoteFile>, local: map<string, int>)
    ensures Mirrored(files, local).0.Keys == local.Keys + Names(files)
    ensures forall k :: k in local && k !in Names(files) ==> Mirrored(files, local).0[k] == local[k]
  {
    if files != [] {
      var n := |files| - 1;
      MirrorKeepsOthers(files[..n], local);
      assert Names(files) == Names(files[..n]) + {files[n].name};
    }
  }

  /** With distinct names, every listed file ends up mirrored with its remote size. */
  lemma {:induction false} MirrorFetchesAll(files: seq<RemoteFile>, local: map<string, int>)
    requires forall i, j :: 0 <= i < j < |files| ==> files[i].name != files[j].name
    ensures forall i :: 0 <= i < |files| ==> files[i].name in Mirrored(files, local).0 && Mirrored(files, local).0[files[i].name] == files[i].size
  {
    if files != [] {
      var n := |files| - 1;
      MirrorFetchesAll(files[..n], local);
      forall i | 0 <= i < n
        ensures files[i].name in Mirrored(files, local).0 && Mirrored(files, local).0[files[i].name] == files[i].size
      {
        assert files[..n][i] == files[i];
      }
    }
  }

  /** Once mirrored, a second pass over the same listing fetches nothing. */
  lemma SecondMirrorFetchesNothing(files: seq<RemoteFile>, local: map<string, int>)
    requires forall i, j :: 0 <= i < j < |files| ==> files[i].name != files[j].name
    ensures Mirrored(files, Mirrored(files, local).0).1 == 0
  {
    MirrorFetchesAll(files, local);
    NothingToFetch(files, Mirrored(files, local).0);
  }

  lemma {:induction false} NothingToFetch(files: seq<RemoteFile>, dir: map<string, int>)
    requires forall i :: 0 <= i < |files| ==> files[i].name in dir && dir[files[i].name] == files[i].size
    ensures Mirrored(files, dir) == (dir, 0)
  {
    if files != [] {
      NothingToFetch(files[..|files| - 1], dir);
    }
  }

  /** The download loop: `local` is the local directory, updated as files are fetched. */
  method DownloadStats(files: seq<RemoteFile>, local: map<string, int>) returns (dir: map<string, int>, downloaded: nat)
    ensures (dir, downloaded) == Mirrored(files, local)
  {
    dir, downloaded := local, 0;
    var i := 0;
    while i < |files|
      invariant 0 <= i <= |files|
      invariant (dir, downloaded) == Mirrored(files[..i], local)
    {
      assert files[..i + 1][..i] == files[..i];
      var file := files[i];
      i := i + 1;
      if file.name in dir && dir[file.name] == file.size {
        continue;
      }
      dir := dir[file.name := file.size];
      downloaded := downloaded + 1;
    }
    assert files[..i] == files;
  }

  /** `path.basename(file, ".json")`: the suffix is removed unless it is the whole name. */
  function BaseName(file: string): (uuid: string)
    ensures EndsWith(file, ".json") && file != ".json" ==> uuid + ".json" == file
  {
    if EndsWith(file, ".json") && file != ".json" then file[..|file| - 5] else file
  }

  /** The upserts of one player's rows into `player_stats`. */
  function Upserted(stats: map<StatKey, int>, uuid: string, rows: seq<StatRow>): map<StatKey, int>
  {
    if rows == [] then stats
    else
      var r := rows[|rows| - 1];
      Upserted(stats, uuid, rows[..|rows| - 1])[StatKey(uuid, r.statType, r.statKey) := r.value]
  }

  /** Each row's key ends up holding the value of its last row, and every key of another player is untouched. */
  lemma {:induction false} UpsertedEffect(stats: map<StatKey, int>, uuid: string, rows: seq<StatRow>)
    ensures var after := Upserted(stats, uuid, rows);
            && (forall k :: k in stats && k.uuid != uuid ==> k in after && after[k] == stats[k])
            && (forall k :: k in after && k.uuid != uuid ==> k in stats)
            && (forall i :: 0 <= i < |rows| ==> StatKey(uuid, rows[i].statType, rows[i].statKey) in after)
            && (forall i :: 0 <= i < |rows| && (forall j :: i < j < |rows| ==> (rows[j].statType, rows[j].statKey) != (rows[i].statType, rows[i].statKey))
                  ==> after[StatKey(uuid, rows[i].statType, rows[i].statKey)] == rows[i].value)
  {
    if rows != [] {
      var n := |rows| - 1;
      UpsertedEffect(stats, uuid, rows[..n]);
      assert forall i :: 0 <= i < n ==> rows[..n][i] == rows[i];
    }
  }

  /** The rows a file's insert loop writes when the upsert at position `fail` throws: the ones before it. */
  function Written(rows: seq<StatRow>, fail: Option<nat>): (r: seq<StatRow>)
    ensures |r| <= |rows| && r == rows[..|r|]
    ensures fail.None? ==> r == rows
  {
    if fail.Some? && fail.value < |rows| then rows[..fail.value] else rows
  }

  /**
   * `importStatsFromFile`: a file whose JSON cannot be read (`None`) or
   * whose player is unknown changes nothing; `fail` is the position of the
   * upsert that throws, if any (0 also stands for a failing users lookup),
   * and the rows before it stay written.
   */
  function Imported(users: map<string, User>, stats: map<StatKey, int>, uuid: string, json: Option<StatsObject>, fail: Option<nat>): map<StatKey, int>
  {
    if uuid !in users || json.None? then stats
    else Upserted(stats, uuid, Written(Flatten(json.value), fail))
  }

  /** The import pass over the directory listing; `contents` holds each readable file's parsed `stats` object, `failures` the failing upsert of each file that has one. */
  function ImportedAll(users: map<string, User>, stats: map<StatKey, int>, listing: seq<string>, contents: map<string, StatsObject>,
                       failures: map<string, nat>): map<StatKey, int>
  {
    if listing == [] then stats
    else ImportFile(users, ImportedAll(users, stats, listing[..|listing| - 1], contents, failures), listing[|listing| - 1], contents, failures)
  }

  /** One entry of the listing: skipped unless it ends in ".json", otherwise imported under its base name. */
  function ImportFile(users: map<string, User>, stats: map<StatKey, int>, file: string, contents: map<string, StatsObject>,
                      failures: map<string, nat>): map<StatKey, int>
  {
    if !EndsWith(file, ".json") then stats
    else Imported(users, stats, BaseName(file), if file in contents then Some(contents[file]) else None,
                  if file in failures then Some(failures[file]) else None)
  }

  /** No stat of a player missing from `users` is ever written, whatever the directory holds and wherever the upserts fail. */
  lemma {:induction false} UnknownPlayersNotImported(users: map<string, User>, stats: map<StatKey, int>, listing: seq<string>,
                                                    contents: map<string, StatsObject>, failures: map<string, nat>, uuid: string)
    requires uuid !in users
    ensures var after := ImportedAll(users, stats, listing, contents, failures);
            forall k: StatKey :: k.uuid == uuid ==> (k in after <==> k in stats) && (k in stats ==> after[k] == stats[k])
  {
    if listing != [] {
      var n := |listing| - 1;
      UnknownPlayersNotImported(users, stats, listing[..n], contents, failures, uuid);
      var before := ImportedAll(users, stats, listing[..n], contents, failures);
      var file := listing[n];
      if EndsWith(file, ".json") && BaseName(file) in users && file in contents {
        UpsertedEffect(before, BaseName(file), Written(Flatten(contents[file]), if file in failures then Some(failures[file]) else None));
      }
    }
  }

  /** A failing upsert keeps the file's earlier rows and skips the rest: a key that only a later row names is not written. */
  lemma FailedUpsertKeepsEarlierRows(stats: map<StatKey, int>, uuid: string, rows: seq<StatRow>, fail: nat)
    requires fail < |rows|
    ensures var after := Upserted(stats, uuid, Written(rows, Some(fail)));
            && (forall i :: 0 <= i < fail ==> StatKey(uuid, rows[i].statType, rows[i].statKey) in after)
            && (forall i :: fail <= i < |rows| ==>
                  var k := StatKey(uuid, rows[i].statType, rows[i].statKey);
                  k !in stats && (forall j :: 0 <= j < fail ==> (rows[j].statType, rows[j].statKey) != (rows[i].statType, rows[i].statKey))
                  ==> k !in after)
  {
    var w := rows[..fail];
    UpsertedEffect(stats, uuid, w);
    UpsertedKeys(stats, uuid, w);
    assert forall j :: 0 <= j < fail ==> w[j] == rows[j];
  }

  /** The upserts add exactly the keys their rows name. */
  lemma {:induction false} UpsertedKeys(stats: map<StatKey, int>, uuid: string, rows: seq<StatRow>)
    ensures forall k :: k in Upserted(stats, uuid, rows) <==>
              k in stats || exists i :: 0 <= i < |rows| && k == StatKey(uuid, rows[i].statType, rows[i].statKey)
  {
    if rows != [] {
      var n := |rows| - 1;
      UpsertedKeys(stats, uuid, rows[..n]);
      forall k | k in Upserted(stats, uuid, rows) && k !in stats
        ensures exists i :: 0 <= i < |rows| && k == StatKey(uuid, rows[i].statType, rows[i].statKey)
      {
        if k != StatKey(uuid, rows[n].statType, rows[n].statKey) {
          var i :| 0 <= i < n && k == StatKey(uuid, rows[..n][i].statType, rows[..n][i].statKey);
          assert rows[..n][i] == rows[i];
        }
      }
      forall k | exists i :: 0 <= i < |rows| && k == StatKey(uuid, rows[i].statType, rows[i].statKey)
        ensures k in Upserted(stats, uuid, rows)
      {
        var i :| 0 <= i < |rows| && k == StatKey(uuid, rows[i].statType, rows[i].statKey);
        if i < n {
          assert rows[..n][i] == rows[i];
        }
      }
    }
  }

  /** Files not ending in ".json" are skipped. */
  lemma OtherFilesSkipped(users: map<string, User>, stats: map<StatKey, int>, listing: seq<string>, contents: map<string, StatsObject>,
                          failures: map<string, nat>, file: string)
    requires !EndsWith(file, ".json")
    ensures ImportedAll(users, stats, listing + [file], contents, failures) == ImportedAll(users, stats, listing, contents, failures)
  {
    assert (listing + [file])[..|listing|] == listing;
  }

  /** The import loop over the local directory; `failures` gives, per file, the position of the upsert that throws. */
  method ImportStats(db: Database, listing: seq<string>, contents: map<string, StatsObject>, failures: map<string, nat>)
    modifies db`playerStats
    ensures db.playerStats == ImportedAll(db.users, old(db.playerStats), listing, contents, failures)
  {
    var i := 0;
    while i < |listing|
      invariant 0 <= i <= |listing|
      invariant db.playerStats == ImportedAll(db.users, old(db.playerStats), listing[..i], contents, failures)
    {
      assert listing[..i + 1][..i] == listing[..i];
      ImportStatsFromFile(db, listing[i], contents, failures);
      i := i + 1;
    }
    assert listing[..i] == listing;
  }

  /** `importStatsFromFile` for one entry of the listing, skipped unless it ends in ".json". */
  method ImportStatsFromFile(db: Database, file: string, contents: map<string, StatsObject>, failures: map<string, nat>)
    modifies db`playerStats
    ensures db.playerStats == ImportFile(db.users, old(db.playerStats), file, contents, failures)
  {
    if !EndsWith(file, ".json") {
      return;
    }
    var uuid := BaseName(file);
    if uuid !in db.users || file !in contents {
      return;
    }
    var rows := FlattenStats(contents[file]);
    UpsertRows(db, uuid, rows, if file in failures then Some(failures[file]) else None);
  }

  /** The insert loop of `importStatsFromFile`, stopped by the upsert at position `fail` throwing, if it does. */
  method UpsertRows(db: Database, uuid: string, rows: seq<StatRow>, fail: Option<nat>)
    modifies db`playerStats
    ensures db.playerStats == Upserted(old(db.playerStats), uuid, Written(rows, fail))
  {
    var k := 0;
    while k < |rows|
      invariant 0 <= k <= |rows|
      invariant fail.Some? ==> k <= fail.value
      invariant db.playerStats == Upserted(old(db.playerStats), uuid, rows[..k])
    {
      if fail == Some(k) {
        break;
      }
      assert rows[..k + 1][..k] == rows[..k];
      var r := rows[k];
      db.playerStats := db.playerStats[StatKey(uuid, r.statType, r.statKey) := r.value];
      k := k + 1;
    }
    assert rows[..|rows|] == rows;
  }
}
