/**
 * The file-per-key JSON store: one directory per user under the storage directory, one
 * `<data_type>[_<time_range>].json` file per saved item, each holding the saved data wrapped
 * in an envelope with the key and the time of the save.
 */
module JsonStorage {
  import opened Prelude
  import opened Text

  /** A file of the store, relative to the storage directory: `<user_id>/<file name>`. */
  datatype FilePath = FilePath(userDir: string, fileName: string)

  /** The metadata envelope `save_data` writes around the caller's data. */
  datatype Envelope<D> = Envelope(
    userId: string,
    dataType: string,
    timeRange: Option<string>,
    timestamp: Option<Instant>,  // None when the stored timestamp does not parse
    data: D)

  /** What reading a file gives: the parsed envelope, or an error (a truncated or malformed file). */
  datatype Content<D> = Parsed(envelope: Envelope<D>) | Unreadable

  datatype StoredFile<D> = StoredFile(content: Content<D>, modified: Instant)

  /** How the write in `save_data` ended: cleanly, before the file was opened, or after truncating it. */
  datatype WriteOutcome = Written | OpenFailed | FailedMidWrite

  /** Python truthiness of an optional string: neither None nor empty. */
  predicate Truthy(s: Option<string>)
  {
    s.Some? && s.value != ""
  }

  function FileName(dataType: string, timeRange: Option<string>): string
  {
    if Truthy(timeRange) then dataType + "_" + timeRange.value + ".json" else dataType + ".json"
  }

  /** `get_file_path`: the file that holds a key. */
  function GetFilePath(userId: string, dataType: string, timeRange: Option<string>): FilePath
  {
    FilePath(userId, FileName(dataType, timeRange))
  }

  predicate EndsWith(s: string, suffix: string)
  {
    |suffix| <= |s| && s[|s| - |suffix|..] == suffix
  }

  /** `load_data` at one path: the envelope, or None when the file is missing or will not parse. */
  function LoadAt<D>(files: map<FilePath, StoredFile<D>>, p: FilePath): (r: Option<Envelope<D>>)
    ensures r.Some? <==> p in files && files[p].content.Parsed?
    ensures r.Some? ==> r.value == files[p].content.envelope
  {
    if p in files && files[p].content.Parsed? then Some(files[p].content.envelope) else None
  }

  /** The file a successful `save_data` leaves behind. */
  function WrittenFile<D>(userId: string, dataType: string, data: D, timeRange: Option<string>, now: Instant): StoredFile<D>
  {
    StoredFile(Parsed(Envelope(userId, dataType, timeRange, Some(now), data)), now)
  }

  /** The store after `save_data(userId, dataType, data, timeRange)` at time `now`. */
  function AfterSave<D>(files: map<FilePath, StoredFile<D>>, userId: string, dataType: string, data: D,
                        timeRange: Option<string>, now: Instant, outcome: WriteOutcome): map<FilePath, StoredFile<D>>
  {
    var p := GetFilePath(userId, dataType, timeRange);
    match outcome
    case Written => files[p := WrittenFile(userId, dataType, data, timeRange, now)]
    case OpenFailed => files
    case FailedMidWrite => files[p := StoredFile(Unreadable, now)]
  }

  /**
   * How `shutil.rmtree` in `clear_user_data` ended: the whole directory removed (or there was
   * none), or an error after the files named in `deleted` had already been unlinked, one by one.
   */
  datatype ClearOutcome = Removed | FailedAfter(deleted: set<string>)

  /** The store after `clear_user_data(userId)` removed the user's directory. */
  function WithoutUser<D>(files: map<FilePath, StoredFile<D>>, userId: string): (r: map<FilePath, StoredFile<D>>)
    ensures forall p :: p in r <==> p in files && p.userDir != userId
    ensures forall p :: p in r ==> r[p] == files[p]
  {
    map p | p in files && p.userDir != userId :: files[p]
  }

  /**
   * The store after `clear_user_data(userId)` with the given outcome: no file is added or
   * changed and other users' files stay; a completed removal takes all of the user's files,
   * a failed one exactly those it had deleted before the error.
   */
  function AfterClear<D>(files: map<FilePath, StoredFile<D>>, userId: string, outcome: ClearOutcome): (r: map<FilePath, StoredFile<D>>)
    ensures forall p :: p in r ==> p in files && r[p] == files[p]
    ensures forall p :: p in files && p.userDir != userId ==> p in r
    ensures outcome.Removed? ==> forall p :: p in r ==> p.userDir != userId
    ensures outcome.FailedAfter? ==>
      forall p :: p in files && p.userDir == userId ==> (p in r <==> p.fileName !in outcome.deleted)
  {
    match outcome
    case Removed => WithoutUser(files, userId)
    case FailedAfter(deleted) => map p | p in files && !(p.userDir == userId && p.fileName in deleted) :: files[p]
  }

  /**
   * `is_data_stale` on a loaded envelope: stale when nothing loaded or the timestamp does not
   * parse, otherwise when the age in whole days (`timedelta.days`, rounded down) reaches `days`.
   */
  function StaleAt<D>(e: Option<Envelope<D>>, now: Instant, days: int): (stale: bool)
    ensures stale <==> e.None? || e.value.timestamp.None? || now - e.value.timestamp.value >= days * DAY
  {
    if e.None? || e.value.timestamp.None? then true
    else
      var age := now - e.value.timestamp.value;
      FloorDaysReach(age, days);
      age / DAY >= days
  }

  /** Comparing whole elapsed days with a whole threshold is comparing the elapsed time itself. */
  lemma FloorDaysReach(age: int, days: int)
    ensures age / DAY >= days <==> age >= days * DAY
  {
    var q, r := age / DAY, age % DAY;
    assert age == DAY * q + r && 0 <= r < DAY;
    if q >= days {
      assert DAY * q >= DAY * days by { MulMonotone(DAY, days, q); }
    } else {
      assert DAY * (q + 1) <= DAY * days by { MulMonotone(DAY, q + 1, days); }
    }
  }

  lemma MulMonotone(k: int, a: int, b: int)
    requires k >= 0 && a <= b
    ensures k * a <= k * b
  {
    assert k * b - k * a == k * (b - a);
  }

  /** File name without `.json`, split on `_`: the data type and time range `get_all_user_files` reports. */
  function ParseFileName(fileName: string): (string, Option<string>)
    requires EndsWith(fileName, ".json")
  {
    var parts := Split(fileName[..|fileName| - 5], "_");
    (parts[0], if |parts| > 1 then Some(parts[1]) else None)
  }

  /** `str.replace('_', ' ')`. */
  function ReplaceUnderscores(s: string): (r: string)
    ensures |r| == |s|
  {
    seq(|s|, i requires 0 <= i < |s| => if s[i] == '_' then ' ' else s[i])
  }

  /** One entry of `get_all_user_files` (the file size, a float, is not modelled). */
  datatype FileInfo = FileInfo(
    fileName: string,
    dataType: string,
    timeRange: Option<string>,
    modified: Instant,
    ageDays: int,
    isStale: bool)

  /** The entry `get_all_user_files` makes for the user's file `p`. */
  function Describe<D>(files: map<FilePath, StoredFile<D>>, userId: string, p: FilePath, now: Instant): FileInfo
    requires p in files && EndsWith(p.fileName, ".json")
  {
    var (dataType, timeRange) := ParseFileName(p.fileName);
    var modified := files[p].modified;
    FileInfo(p.fileName, dataType, timeRange, modified, (now - modified) / DAY,
             StaleAt(LoadAt(files, GetFilePath(userId, ReplaceUnderscores(dataType), timeRange)), now, 7))
  }

  /** The user's files that `get_all_user_files` lists. */
  function JsonFilesOf<D>(files: map<FilePath, StoredFile<D>>, userId: string): set<FilePath>
  {
    set p | p in files && p.userDir == userId && EndsWith(p.fileName, ".json")
  }

  predicate NewestFirst(infos: seq<FileInfo>)
  {
    forall i, j :: 0 <= i < j < |infos| ==> infos[i].modified >= infos[j].modified
  }

  /** Places `x` after every entry at least as recent: `sorted(..., key=modified, reverse=True)`. */
  function InsertByModified(s: seq<FileInfo>, x: FileInfo): (r: seq<FileInfo>)
    ensures |r| == |s| + 1 && multiset(r) == multiset(s) + multiset{x}
  {
    if s == [] then [x]
    else if s[0].modified >= x.modified then
      assert s == [s[0]] + s[1..];
      [s[0]] + InsertByModified(s[1..], x)
    else
      assert s == [s[0]] + s[1..];
      [x] + s
  }

  lemma {:induction false} InsertByModifiedSorted(s: seq<FileInfo>, x: FileInfo)
    requires NewestFirst(s)
    ensures NewestFirst(InsertByModified(s, x))
  {
    if s != [] && s[0].modified >= x.modified {
      var t := InsertByModified(s[1..], x);
      InsertByModifiedSorted(s[1..], x);
      forall k | 0 <= k < |t| ensures s[0].modified >= t[k].modified {
        assert t[k] in multiset(s[1..]) + multiset{x};
        if t[k] in multiset(s[1..]) {
          var m :| 0 <= m < |s[1..]| && s[1..][m] == t[k];
          assert s[m + 1] == t[k];
        }
      }
    }
  }

  class JsonStore<D> {
    /** Every file under the storage directory. */
    var files: map<FilePath, StoredFile<D>>

    constructor()
      ensures files == map[]
    {
      files := map[];
    }

    /** `save_data`: returns True exactly when the write completed. */
    method SaveData(userId: string, dataType: string, data: D, timeRange: Option<string>,
                    now: Instant, outcome: WriteOutcome) returns (ok: bool)
      modifies this
      ensures ok <==> outcome == Written
      ensures files == AfterSave(old(files), userId, dataType, data, timeRange, now, outcome)
    {
      var p := GetFilePath(userId, dataType, timeRange);
      match outcome {
        case Written =>
          files := files[p := WrittenFile(userId, dataType, data, timeRange, now)];
          ok := true;
        case OpenFailed =>
          ok := false;
        case FailedMidWrite =>
          files := files[p := StoredFile(Unreadable, now)];
          ok := false;
      }
    }

    /** `load_data`: the envelope of the key's file, or None when it is missing or will not parse. */
    function LoadData(userId: string, dataType: string, timeRange: Option<string>): (r: Option<Envelope<D>>)
      reads this
      ensures var p := GetFilePath(userId, dataType, timeRange);
        && (r.Some? <==> p in files && files[p].content.Parsed?)
        && (r.Some? ==> r.value == files[p].content.envelope)
    {
      LoadAt(files, GetFilePath(userId, dataType, timeRange))
    }

    /** `is_data_stale` with the clock reading `now` (the default threshold is 7 days). */
    function IsDataStale(userId: string, dataType: string, timeRange: Option<string>, now: Instant, days: int): (stale: bool)
      reads this
      ensures var e := LoadData(userId, dataType, timeRange);
        stale <==> e.None? || e.value.timestamp.None? || now - e.value.timestamp.value >= days * DAY
    {
      StaleAt(LoadData(userId, dataType, timeRange), now, days)
    }

    method SaveUserProfile(userId: string, profile: D, now: Instant, outcome: WriteOutcome) returns (ok: bool)
      modifies this
      ensures ok <==> outcome == Written
      ensures files == AfterSave(old(files), userId, "profile", profile, None, now, outcome)
      ensures ok ==> LoadUserProfile(userId) == Some(profile)
    {
      ok := SaveData(userId, "profile", profile, None, now, outcome);
    }

    /** `load_user_profile`: the data inside the envelope, when one loads. */
    function LoadUserProfile(userId: string): (r: Option<D>)
      reads this
      ensures var e := LoadData(userId, "profile", None);
        (r.Some? <==> e.Some?) && (r.Some? ==> r.value == e.value.data)
    {
      var e := LoadData(userId, "profile", None);
      if e.Some? then Some(e.value.data) else None
    }

    method SaveTopTracks(userId: string, tracks: D, timeRange: string, now: Instant, outcome: WriteOutcome) returns (ok: bool)
      modifies this
      ensures ok <==> outcome == Written
      ensures files == AfterSave(old(files), userId, "top_tracks", tracks, Some(timeRange), now, outcome)
      ensures ok ==> LoadTopTracks(userId, timeRange) == Some(tracks)
    {
      ok := SaveData(userId, "top_tracks", tracks, Some(timeRange), now, outcome);
    }

    /** `load_top_tracks`: the data of the range's top-tracks file, when one loads. */
    function LoadTopTracks(userId: string, timeRange: string): (r: Option<D>)
      reads this
      ensures var e := LoadData(userId, "top_tracks", Some(timeRange));
        (r.Some? <==> e.Some?) && (r.Some? ==> r.value == e.value.data)
    {
      var e := LoadData(userId, "top_tracks", Some(timeRange));
      if e.Some? then Some(e.value.data) else None
    }

    method SaveTopArtists(userId: string, artists: D, timeRange: string, now: Instant, outcome: WriteOutcome) returns (ok: bool)
      modifies this
      ensures ok <==> outcome == Written
      ensures files == AfterSave(old(files), userId, "top_artists", artists, Some(timeRange), now, outcome)
      ensures ok ==> LoadTopArtists(userId, timeRange) == Some(artists)
    {
      ok := SaveData(userId, "top_artists", artists, Some(timeRange), now, outcome);
    }

    /** `load_top_artists`: the data of the range's top-artists file, when one loads. */
    function LoadTopArtists(userId: string, timeRange: string): (r: Option<D>)
      reads this
      ensures var e := LoadData(userId, "top_artists", Some(timeRange));
        (r.Some? <==> e.Some?) && (r.Some? ==> r.value == e.value.data)
    {
      var e := LoadData(userId, "top_artists", Some(timeRange));
      if e.Some? then Some(e.value.data) else None
    }

    /**
     * `clear_user_data`: removes the user's directory; `outcome` says how `rmtree` ended. The
     * result is true exactly when it completed; a failure keeps whatever it had not yet deleted.
     */
    method ClearUserData(userId: string, outcome: ClearOutcome) returns (ok: bool)
      modifies this
      ensures ok <==> outcome.Removed?
      ensures files == AfterClear(old(files), userId, outcome)
      ensures files.Keys <= old(files).Keys
      ensures forall p :: p in files ==> files[p] == old(files)[p]
      ensures forall p :: p in old(files) && p.userDir != userId ==> p in files
    {
      files := AfterClear(files, userId, outcome);
      ok := outcome.Removed?;
    }

    /**
     * `get_all_user_files`: one entry per `.json` file in the user's directory, newest first.
     * The directory listing's order is left open; only the order of the result matters.
     */
    method GetAllUserFiles(userId: string, now: Instant) returns (infos: seq<FileInfo>)
      ensures |infos| == |JsonFilesOf(files, userId)|
      ensures NewestFirst(infos)
      ensures forall p :: p in JsonFilesOf(files, userId) ==> Describe(files, userId, p, now) in infos
      ensures forall i :: 0 <= i < |infos| ==> infos[i] in EntrySet(files, userId, now)
    {
      var fs := files;
      var found, order := ScanFiles(fs, userId, now);
      infos := SortNewestFirst(found);
      ListedOnce(fs, userId, now, order, found);
    }
  }

  /** The directory scan of `get_all_user_files`: one entry per `.json` file of the user, in some order. */
  method ScanFiles<D>(fs: map<FilePath, StoredFile<D>>, userId: string, now: Instant)
    returns (found: seq<FileInfo>, ghost order: seq<FilePath>)
    ensures |found| == |order|
    ensures forall i :: 0 <= i < |order| ==>
      order[i] in JsonFilesOf(fs, userId) && found[i] == Describe(fs, userId, order[i], now)
    ensures forall p :: p in JsonFilesOf(fs, userId) ==> p in order
    ensures forall i, j :: 0 <= i < j < |order| ==> order[i] != order[j]
  {
    var remaining := JsonFilesOf(fs, userId);
    found := [];
    order := [];
    while remaining != {}
      invariant remaining <= JsonFilesOf(fs, userId)
      invariant |found| == |order|
      invariant forall i :: 0 <= i < |order| ==> order[i] in JsonFilesOf(fs, userId) && order[i] !in remaining
      invariant forall i :: 0 <= i < |order| ==> found[i] == Describe(fs, userId, order[i], now)
      invariant forall p :: p in JsonFilesOf(fs, userId) && p !in remaining ==> p in order
      invariant forall i, j :: 0 <= i < j < |order| ==> order[i] != order[j]
      decreases |remaining|
    {
      var p :| p in remaining;
      found := found + [Describe(fs, userId, p, now)];
      order := order + [p];
      remaining := remaining - {p};
    }
  }

  /** The entries of all the user's `.json` files. */
  ghost function EntrySet<D>(files: map<FilePath, StoredFile<D>>, userId: string, now: Instant): set<FileInfo>
  {
    set p | p in JsonFilesOf(files, userId) :: Describe(files, userId, p, now)
  }

  /** `sorted(files, key=modified, reverse=True)`. */
  function SortNewestFirst(s: seq<FileInfo>): (r: seq<FileInfo>)
    ensures |r| == |s| && multiset(r) == multiset(s) && NewestFirst(r)
  {
    if s == [] then []
    else
      var init := SortNewestFirst(s[..|s| - 1]);
      InsertByModifiedSorted(init, s[|s| - 1]);
      assert s == s[..|s| - 1] + [s[|s| - 1]];
      InsertByModified(init, s[|s| - 1])
  }

  /** After the loop every file was visited exactly once. */
  lemma ListedOnce<D>(files: map<FilePath, StoredFile<D>>, userId: string, now: Instant,
                      order: seq<FilePath>, found: seq<FileInfo>)
    requires |found| == |order|
    requires forall i :: 0 <= i < |order| ==>
      order[i] in JsonFilesOf(files, userId) && found[i] == Describe(files, userId, order[i], now)
    requires forall p :: p in JsonFilesOf(files, userId) ==> p in order
    requires forall i, j :: 0 <= i < j < |order| ==> order[i] != order[j]
    ensures |SortNewestFirst(found)| == |JsonFilesOf(files, userId)|
    ensures forall p :: p in JsonFilesOf(files, userId) ==> Describe(files, userId, p, now) in SortNewestFirst(found)
    ensures forall i :: 0 <= i < |SortNewestFirst(found)| ==> SortNewestFirst(found)[i] in EntrySet(files, userId, now)
  {
    var all := JsonFilesOf(files, userId);
    var sorted := SortNewestFirst(found);
    assert (set i | 0 <= i < |order| :: order[i]) == all;
    DistinctCard(order);
    forall p | p in all ensures Describe(files, userId, p, now) in sorted {
      var i :| 0 <= i < |order| && order[i] == p;
      assert found[i] in multiset(sorted);
    }
    forall i | 0 <= i < |sorted| ensures sorted[i] in EntrySet(files, userId, now) {
      assert sorted[i] in multiset(found);
      var k :| 0 <= k < |found| && found[k] == sorted[i];
      assert order[k] in all;
    }
  }

  lemma {:induction false} DistinctCard<T>(xs: seq<T>)
    requires forall i, j :: 0 <= i < j < |xs| ==> xs[i] != xs[j]
    ensures |set i | 0 <= i < |xs| :: xs[i]| == |xs|
  {
    if xs != [] {
      var init := xs[..|xs| - 1];
      DistinctCard(init);
      var s := set i | 0 <= i < |init| :: init[i];
      assert (set i | 0 <= i < |xs| :: xs[i]) == s + {xs[|xs| - 1]};
    }
  }

  // ---- Properties of the store ----

  /** A completed save is what the next load returns; a failed write loses the old file or leaves it. */
  lemma SaveThenLoad<D>(files: map<FilePath, StoredFile<D>>, userId: string, dataType: string, data: D,
                        timeRange: Option<string>, now: Instant, outcome: WriteOutcome)
    ensures var after := AfterSave(files, userId, dataType, data, timeRange, now, outcome);
            var p := GetFilePath(userId, dataType, timeRange);
            LoadAt(after, p) == match outcome
              case Written => Some(Envelope(userId, dataType, timeRange, Some(now), data))
              case OpenFailed => LoadAt(files, p)
              case FailedMidWrite => None
  {
  }

  /**
   * The wrappers keep their keys apart: saving one range's top tracks is read back by
   * `load_top_tracks` for that range, and leaves the profile, every range's top artists and
   * every other range's top tracks loading as before.
   */
  lemma WrapperSaveThenLoad<D>(files: map<FilePath, StoredFile<D>>, userId: string, r: string, other: string,
                               data: D, now: Instant)
    requires r != "" && other != ""
    ensures var after := AfterSave(files, userId, "top_tracks", data, Some(r), now, Written);
      && LoadAt(after, GetFilePath(userId, "top_tracks", Some(r))) == Some(Envelope(userId, "top_tracks", Some(r), Some(now), data))
      && LoadAt(after, GetFilePath(userId, "profile", None)) == LoadAt(files, GetFilePath(userId, "profile", None))
      && LoadAt(after, GetFilePath(userId, "top_artists", Some(other))) == LoadAt(files, GetFilePath(userId, "top_artists", Some(other)))
      && (other != r ==> LoadAt(after, GetFilePath(userId, "top_tracks", Some(other))) == LoadAt(files, GetFilePath(userId, "top_tracks", Some(other))))
  {
    WrapperFilesDistinct(r, other);
    WrapperFilesDistinct(other, r);
  }

  /** A save touches only its own file: every other path loads as before. */
  lemma SaveLeavesOtherFiles<D>(files: map<FilePath, StoredFile<D>>, userId: string, dataType: string, data: D,
                                timeRange: Option<string>, now: Instant, outcome: WriteOutcome, q: FilePath)
    requires q != GetFilePath(userId, dataType, timeRange)
    ensures LoadAt(AfterSave(files, userId, dataType, data, timeRange, now, outcome), q) == LoadAt(files, q)
  {
  }

  /** Data just saved is fresh: it is stale at once only for a threshold of zero days or less. */
  lemma FreshAfterSave<D>(files: map<FilePath, StoredFile<D>>, userId: string, dataType: string, data: D,
                          timeRange: Option<string>, now: Instant, days: int)
    ensures var e := LoadAt(AfterSave(files, userId, dataType, data, timeRange, now, Written),
                            GetFilePath(userId, dataType, timeRange));
            StaleAt(e, now, days) <==> days <= 0
  {
    if days > 0 { MulMonotone(DAY, 1, days); }
  }

  /**
   * After any clear, other users' files load as before. After a completed one nothing of the
   * user loads; after a failed one a file of the user loads as before unless it was deleted.
   */
  lemma ClearRemovesOnlyUser<D>(files: map<FilePath, StoredFile<D>>, userId: string, outcome: ClearOutcome, q: FilePath)
    ensures q.userDir != userId ==> LoadAt(AfterClear(files, userId, outcome), q) == LoadAt(files, q)
    ensures outcome.Removed? && q.userDir == userId ==> LoadAt(AfterClear(files, userId, outcome), q) == None
    ensures outcome.FailedAfter? && q.userDir == userId ==>
      LoadAt(AfterClear(files, userId, outcome), q) == if q.fileName in outcome.deleted then None else LoadAt(files, q)
  {
  }

  /**
   * Distinct keys do not always get distinct files: a data type and a time range may share an
   * underscore boundary, and a missing time range is the same file as an empty one.
   */
  lemma KeysThatShareAFile(userId: string, dataType: string)
    ensures GetFilePath(userId, "top", Some("tracks_medium_term")) == GetFilePath(userId, "top_tracks", Some("medium_term"))
    ensures GetFilePath(userId, dataType, None) == GetFilePath(userId, dataType, Some(""))
  {
    assert "top" + "_" + "tracks_medium_term" == "top_tracks" + "_" + "medium_term";
  }

  predicate NoUnderscore(s: string)
  {
    forall i :: 0 <= i < |s| ==> s[i] != '_'
  }

  /**
   * When data types have no underscore and time ranges are either absent or non-empty, the
   * file name determines the key.
   */
  lemma FileNameInjective(dt1: string, tr1: Option<string>, dt2: string, tr2: Option<string>)
    requires NoUnderscore(dt1) && NoUnderscore(dt2)
    requires tr1 == None || Truthy(tr1)
    requires tr2 == None || Truthy(tr2)
    requires FileName(dt1, tr1) == FileName(dt2, tr2)
    ensures dt1 == dt2 && tr1 == tr2
  {
    var n := FileName(dt1, tr1);
    assert n[..|n| - 5] == Stem(dt1, tr1) == Stem(dt2, tr2);
    StemUnderscore(dt1, tr1);
    StemUnderscore(dt2, tr2);
    if Truthy(tr1) && Truthy(tr2) {
      UnderscoreSplitUnique(dt1, tr1.value, dt2, tr2.value);
    }
  }

  /** The file name without `.json`. */
  function Stem(dataType: string, timeRange: Option<string>): string
  {
    if Truthy(timeRange) then dataType + "_" + timeRange.value else dataType
  }

  predicate HasUnderscore(s: string)
  {
    exists i :: 0 <= i < |s| && s[i] == '_'
  }

  lemma StemUnderscore(dataType: string, timeRange: Option<string>)
    requires NoUnderscore(dataType)
    ensures HasUnderscore(Stem(dataType, timeRange)) <==> Truthy(timeRange)
  {
    if Truthy(timeRange) {
      assert Stem(dataType, timeRange)[|dataType|] == '_';
    }
  }

  lemma UnderscoreSplitUnique(a1: string, b1: string, a2: string, b2: string)
    requires NoUnderscore(a1) && NoUnderscore(a2)
    requires a1 + "_" + b1 == a2 + "_" + b2
    ensures a1 == a2 && b1 == b2
  {
    var s := a1 + "_" + b1;
    assert s[|a1|] == '_' && s[|a2|] == '_';
    assert a1 == s[..|a1|] == a2;
    assert b1 == s[|a1| + 1..] == b2;
  }

  /** The wrappers of `json_storage` use different files for the profile and for every list and time range. */
  lemma WrapperFilesDistinct(r1: string, r2: string)
    requires r1 != "" && r2 != ""
    ensures FileName("profile", None) != FileName("top_tracks", Some(r1))
    ensures FileName("profile", None) != FileName("top_artists", Some(r1))
    ensures FileName("top_tracks", Some(r1)) != FileName("top_artists", Some(r2))
    ensures FileName("top_tracks", Some(r1)) == FileName("top_tracks", Some(r2)) <==> r1 == r2
    ensures FileName("top_artists", Some(r1)) == FileName("top_artists", Some(r2)) <==> r1 == r2
  {
    var profile := FileName("profile", None);
    var tracks1, tracks2 := FileName("top_tracks", Some(r1)), FileName("top_tracks", Some(r2));
    var artists1, artists2 := FileName("top_artists", Some(r1)), FileName("top_artists", Some(r2));
    assert profile[0] == 'p';
    assert tracks1[..10] == "top_tracks" && tracks1[0] == 't' && tracks1[4] == 't';
    assert artists1[..11] == "top_artists" && artists1[0] == 't';
    assert artists2[..11] == "top_artists" && artists2[4] == 'a';
    SuffixCancel("top_tracks", r1, r2);
    SuffixCancel("top_artists", r1, r2);
  }

  lemma SuffixCancel(dataType: string, r1: string, r2: string)
    ensures dataType + "_" + r1 + ".json" == dataType + "_" + r2 + ".json" <==> r1 == r2
  {
    var n1, n2 := dataType + "_" + r1 + ".json", dataType + "_" + r2 + ".json";
    if n1 == n2 {
      assert |r1| == |r2|;
      assert r1 == n1[|dataType| + 1..|dataType| + 1 + |r1|];
      assert r2 == n2[|dataType| + 1..|dataType| + 1 + |r2|];
    }
  }

  /**
   * Parsing a saved file name recovers its key only when neither part has an underscore: the
   * listing reads "top_tracks_medium_term.json" as data type "top" with time range "tracks".
   */
  lemma ParseFileNameMisreadsTopTracks()
    ensures ParseFileName("top_tracks_medium_term.json") == ("top", Some("tracks"))
  {
    assert "top_tracks_medium_term.json" == "top" + "_" + "tracks" + "_" + "medium_term" + ".json";
    ParseThreeParts("top", "tracks", "medium_term");
  }

  /** A name with two underscores reports only its first two parts. */
  lemma ParseThreeParts(a: string, b: string, c: string)
    requires NoUnderscore(a) && NoUnderscore(b)
    ensures EndsWith(a + "_" + b + "_" + c + ".json", ".json")
    ensures ParseFileName(a + "_" + b + "_" + c + ".json") == (a, Some(b))
  {
    var n := a + "_" + b + "_" + c + ".json";
    assert n[|n| - 5..] == ".json";
    assert n[..|n| - 5] == a + "_" + (b + "_" + c);
    SplitAtUnderscore(a, b + "_" + c);
    SplitAtUnderscore(b, c);
  }

  lemma SplitAtUnderscore(head: string, rest: string)
    requires NoUnderscore(head)
    ensures Split(head + "_" + rest, "_") == [head] + Split(rest, "_")
  {
    var s := head + "_" + rest;
    assert Occurs(s, "_", |head|) by { assert s[|head|..|head| + 1] == "_"; }
    forall j | 0 <= j < |head| ensures !Occurs(s, "_", j) {
      assert s[j..j + 1] == [head[j]];
    }
    assert Find(s, "_") == |head|;
    assert s[..|head|] == head && s[|head| + 1..] == rest;
  }

  /**
   * Consequently the staleness the listing reports for a saved top-tracks file is that of the
   * unrelated key ("top", "tracks"): with no such file it reports the data stale however new it is.
   */
  lemma ListingStalenessOfTopTracks<D>(files: map<FilePath, StoredFile<D>>, userId: string, now: Instant)
    requires FilePath(userId, "top_tracks_medium_term.json") in files
    requires FilePath(userId, "top_tracks.json") !in files
    ensures Describe(files, userId, FilePath(userId, "top_tracks_medium_term.json"), now).isStale
  {
    ParseFileNameMisreadsTopTracks();
    assert ReplaceUnderscores("top") == "top";
    assert GetFilePath(userId, "top", Some("tracks")) == FilePath(userId, "top_tracks.json");
  }

  /** With underscore-free parts the listing's parse is the inverse of `get_file_path`'s naming. */
  lemma ParseFileNameInverts(dataType: string, timeRange: Option<string>)
    requires NoUnderscore(dataType) && dataType != ""
    requires timeRange == None || (Truthy(timeRange) && NoUnderscore(timeRange.value))
    ensures EndsWith(FileName(dataType, timeRange), ".json")
    ensures ParseFileName(FileName(dataType, timeRange)) == (dataType, timeRange)
  {
    var n := FileName(dataType, timeRange);
    assert n[|n| - 5..] == ".json";
    if Truthy(timeRange) {
      var tr := timeRange.value;
      assert n[..|n| - 5] == dataType + "_" + tr;
      SplitAtUnderscore(dataType, tr);
      NoUnderscoreSplit(tr);
    } else {
      assert n[..|n| - 5] == dataType;
      NoUnderscoreSplit(dataType);
    }
  }

  lemma NoUnderscoreSplit(s: string)
    requires NoUnderscore(s)
    ensures Split(s, "_") == [s]
  {
    forall j | 0 <= j < |s| ensures !Occurs(s, "_", j) {
      assert s[j..j + 1] == [s[j]];
    }
  }
}
