/**
 * The SQLite store of the backend: a catalogue of tracks and artists (with their artist links
 * and genres), each user's ranked top tracks and top artists per time range, and a
 * sync-metadata row per (user, data type, time range). Each save is one sequential table
 * transformation; rows of the link, genre and ranking tables are kept in insertion (rowid)
 * order, and `INSERT OR REPLACE` deletes the row with the same primary key and appends the
 * new one.
 */
module SpotifyDb {
  import opened Prelude
  import opened Text
  import JsonStorage

  // ---- The upstream objects that are saved ----

  datatype Artist = Artist(id: string, name: string, popularity: Option<int>, followers: Option<int>, genres: seq<string>)

  datatype Track = Track(id: string, name: string, albumName: Option<string>, durationMs: Option<int>,
                         popularity: Option<int>, artists: seq<Artist>)

  // ---- Rows ----

  datatype ArtistRow = ArtistRow(name: string, popularity: Option<int>, followers: Option<int>)

  datatype TrackRow = TrackRow(name: string, albumName: Option<string>, durationMs: Option<int>, popularity: Option<int>)

  /** `track_artists`, primary key (track_id, artist_id). */
  datatype LinkRow = LinkRow(trackId: string, artistId: string, artistPosition: nat)

  /** `artist_genres`, primary key (artist_id, genre). */
  datatype GenreRow = GenreRow(artistId: string, genre: string)

  /** `user_top_tracks` / `user_top_artists`, primary key (user_id, item id, time_range). */
  datatype RankRow = RankRow(userId: string, itemId: string, timeRange: string, position: nat, lastUpdated: Instant)

  datatype SyncKey = SyncKey(userId: string, dataType: string, timeRange: string)

  datatype SyncRow = SyncRow(lastSynced: Instant, totalItems: nat)

  /** The four catalogue tables. */
  datatype Catalog = Catalog(tracks: map<string, TrackRow>, artists: map<string, ArtistRow>,
                             links: seq<LinkRow>, genres: seq<GenreRow>)

  function ArtistRowOf(a: Artist): ArtistRow { ArtistRow(a.name, a.popularity, a.followers) }

  function TrackRowOf(t: Track): TrackRow { TrackRow(t.name, t.albumName, t.durationMs, t.popularity) }

  // ---- INSERT OR REPLACE on the row tables ----

  function WithoutGenre(rows: seq<GenreRow>, g: GenreRow): (r: seq<GenreRow>)
    ensures forall x :: x in r <==> x in rows && x != g
  {
    if rows == [] then []
    else (if rows[0] == g then [] else [rows[0]]) + WithoutGenre(rows[1..], g)
  }

  function UpsertGenre(rows: seq<GenreRow>, g: GenreRow): (r: seq<GenreRow>)
    ensures forall x :: x in r <==> x in rows || x == g
  {
    WithoutGenre(rows, g) + [g]
  }

  function WithoutLink(rows: seq<LinkRow>, trackId: string, artistId: string): (r: seq<LinkRow>)
    ensures forall x :: x in r <==> x in rows && !(x.trackId == trackId && x.artistId == artistId)
  {
    if rows == [] then []
    else
      (if rows[0].trackId == trackId && rows[0].artistId == artistId then [] else [rows[0]])
      + WithoutLink(rows[1..], trackId, artistId)
  }

  function UpsertLink(rows: seq<LinkRow>, l: LinkRow): (r: seq<LinkRow>)
    ensures forall x :: x in r <==> (x in rows && !(x.trackId == l.trackId && x.artistId == l.artistId)) || x == l
  {
    WithoutLink(rows, l.trackId, l.artistId) + [l]
  }

  // ---- The catalogue saves ----

  /** The genre rows after `save_artist`'s loop over the first `|gs|` genres. */
  function GenresAfter(rows: seq<GenreRow>, artistId: string, gs: seq<string>): seq<GenreRow>
  {
    if gs == [] then rows
    else UpsertGenre(GenresAfter(rows, artistId, gs[..|gs| - 1]), GenreRow(artistId, gs[|gs| - 1]))
  }

  /** `save_artist`: replace the artist row, then insert-or-replace each genre. */
  function WithArtist(c: Catalog, a: Artist): Catalog
  {
    c.(artists := c.artists[a.id := ArtistRowOf(a)], genres := GenresAfter(c.genres, a.id, a.genres))
  }

  /** `save_track`'s loop over the first `|arts|` artists: save the artist, then link it at its index. */
  function LinkArtists(c: Catalog, trackId: string, arts: seq<Artist>): Catalog
  {
    if arts == [] then c
    else
      var c' := WithArtist(LinkArtists(c, trackId, arts[..|arts| - 1]), arts[|arts| - 1]);
      c'.(links := UpsertLink(c'.links, LinkRow(trackId, arts[|arts| - 1].id, |arts| - 1)))
  }

  /** `save_track`: replace the track row, then save and link its artists in order. */
  function WithTrack(c: Catalog, t: Track): Catalog
  {
    LinkArtists(c.(tracks := c.tracks[t.id := TrackRowOf(t)]), t.id, t.artists)
  }

  function WithTracks(c: Catalog, ts: seq<Track>): Catalog
  {
    if ts == [] then c else WithTrack(WithTracks(c, ts[..|ts| - 1]), ts[|ts| - 1])
  }

  function WithArtists(c: Catalog, arts: seq<Artist>): Catalog
  {
    if arts == [] then c else WithArtist(WithArtists(c, arts[..|arts| - 1]), arts[|arts| - 1])
  }

  /** Every link and genre row refers to a stored track and artist. */
  predicate CatalogValid(c: Catalog)
  {
    && (forall l :: l in c.links ==> l.trackId in c.tracks && l.artistId in c.artists)
    && (forall g :: g in c.genres ==> g.artistId in c.artists)
  }

  /** What one catalogue step keeps: no row disappears from the keyed tables, no genre is lost. */
  predicate Grows(c: Catalog, c': Catalog)
  {
    && c.tracks.Keys <= c'.tracks.Keys
    && c.artists.Keys <= c'.artists.Keys
    && (forall g :: g in c.genres ==> g in c'.genres)
  }

  lemma {:induction false} GenresAfterSpec(rows: seq<GenreRow>, artistId: string, gs: seq<string>)
    ensures forall x :: x in GenresAfter(rows, artistId, gs) <==> x in rows || (x.artistId == artistId && x.genre in gs)
  {
    if gs != [] {
      GenresAfterSpec(rows, artistId, gs[..|gs| - 1]);
      assert gs == gs[..|gs| - 1] + [gs[|gs| - 1]];
    }
  }

  /**
   * `save_artist` stores the artist's row and every one of its genres, keeps the catalogue's
   * references valid and never removes a genre: an artist's genres only accumulate.
   */
  lemma WithArtistSpec(c: Catalog, a: Artist)
    ensures var c' := WithArtist(c, a);
      && c'.tracks == c.tracks && c'.links == c.links
      && c'.artists == c.artists[a.id := ArtistRowOf(a)]
      && (forall g :: g in a.genres ==> GenreRow(a.id, g) in c'.genres)
      && (forall x :: x in c'.genres <==> x in c.genres || (x.artistId == a.id && x.genre in a.genres))
      && Grows(c, c')
      && (CatalogValid(c) ==> CatalogValid(c'))
  {
    GenresAfterSpec(c.genres, a.id, a.genres);
  }

  lemma GrowsTrans(a: Catalog, b: Catalog, c: Catalog)
    requires Grows(a, b) && Grows(b, c)
    ensures Grows(a, c)
  {
  }

  /** Linking a stored track to a stored artist keeps the references valid. */
  lemma UpsertLinkValid(c: Catalog, l: LinkRow)
    requires CatalogValid(c) && l.trackId in c.tracks && l.artistId in c.artists
    ensures CatalogValid(c.(links := UpsertLink(c.links, l)))
  {
  }

  lemma WithArtistGrows(c: Catalog, a: Artist)
    ensures var c' := WithArtist(c, a);
      c'.tracks == c.tracks && a.id in c'.artists && Grows(c, c')
  {
    GenresAfterSpec(c.genres, a.id, a.genres);
  }

  lemma {:induction false} LinkArtistsGrows(c: Catalog, trackId: string, arts: seq<Artist>)
    ensures var c' := LinkArtists(c, trackId, arts);
      && c'.tracks == c.tracks
      && Grows(c, c')
      && (forall k :: 0 <= k < |arts| ==> arts[k].id in c'.artists)
  {
    if arts != [] {
      var init := arts[..|arts| - 1];
      var a := arts[|arts| - 1];
      LinkArtistsGrows(c, trackId, init);
      var mid := LinkArtists(c, trackId, init);
      WithArtistGrows(mid, a);
      GrowsTrans(c, mid, LinkArtists(c, trackId, arts));
      forall k | 0 <= k < |arts| ensures arts[k].id in LinkArtists(c, trackId, arts).artists {
        if k < |init| { assert init[k] == arts[k]; }
      }
    }
  }

  lemma {:induction false} LinkArtistsValid(c: Catalog, trackId: string, arts: seq<Artist>)
    requires trackId in c.tracks && CatalogValid(c)
    ensures CatalogValid(LinkArtists(c, trackId, arts))
  {
    if arts != [] {
      var init := arts[..|arts| - 1];
      var a := arts[|arts| - 1];
      LinkArtistsValid(c, trackId, init);
      LinkArtistsGrows(c, trackId, init);
      var mid := LinkArtists(c, trackId, init);
      WithArtistSpec(mid, a);
      UpsertLinkValid(WithArtist(mid, a), LinkRow(trackId, a.id, |arts| - 1));
    }
  }

  /**
   * `save_track` stores the track's row, stores every one of its artists, keeps the
   * catalogue's references valid and removes nothing from the keyed tables.
   */
  lemma WithTrackSpec(c: Catalog, t: Track)
    ensures var c' := WithTrack(c, t);
      && c'.tracks == c.tracks[t.id := TrackRowOf(t)]
      && (forall k :: 0 <= k < |t.artists| ==> t.artists[k].id in c'.artists)
      && Grows(c, c')
      && (CatalogValid(c) ==> CatalogValid(c'))
  {
    var c0 := c.(tracks := c.tracks[t.id := TrackRowOf(t)]);
    LinkArtistsGrows(c0, t.id, t.artists);
    if CatalogValid(c) {
      LinkArtistsValid(c0, t.id, t.artists);
    }
  }

  lemma {:induction false} WithTracksSpec(c: Catalog, ts: seq<Track>)
    ensures Grows(c, WithTracks(c, ts))
    ensures forall k :: 0 <= k < |ts| ==> ts[k].id in WithTracks(c, ts).tracks
    ensures CatalogValid(c) ==> CatalogValid(WithTracks(c, ts))
  {
    if ts != [] {
      var init := ts[..|ts| - 1];
      WithTracksSpec(c, init);
      WithTrackSpec(WithTracks(c, init), ts[|ts| - 1]);
      assert forall k :: 0 <= k < |init| ==> init[k] == ts[k];
    }
  }

  lemma {:induction false} WithArtistsSpec(c: Catalog, arts: seq<Artist>)
    ensures Grows(c, WithArtists(c, arts))
    ensures WithArtists(c, arts).tracks == c.tracks
    ensures forall k :: 0 <= k < |arts| ==> arts[k].id in WithArtists(c, arts).artists
    ensures CatalogValid(c) ==> CatalogValid(WithArtists(c, arts))
  {
    if arts != [] {
      var init := arts[..|arts| - 1];
      WithArtistsSpec(c, init);
      WithArtistSpec(WithArtists(c, init), arts[|arts| - 1]);
      assert forall k :: 0 <= k < |init| ==> init[k] == arts[k];
    }
  }

  // ---- Rankings ----

  /** The rows of one (user, time range), in table order. */
  function Group(rows: seq<RankRow>, userId: string, timeRange: string): (g: seq<RankRow>)
    ensures forall k :: 0 <= k < |g| ==> g[k] in rows && g[k].userId == userId && g[k].timeRange == timeRange
  {
    if rows == [] then []
    else
      (if rows[0].userId == userId && rows[0].timeRange == timeRange then [rows[0]] else [])
      + Group(rows[1..], userId, timeRange)
  }

  /** `DELETE FROM ... WHERE user_id = ? AND time_range = ?`. */
  function DeleteGroup(rows: seq<RankRow>, userId: string, timeRange: string): (r: seq<RankRow>)
    ensures forall x :: x in r <==> x in rows && !(x.userId == userId && x.timeRange == timeRange)
  {
    if rows == [] then []
    else
      (if rows[0].userId == userId && rows[0].timeRange == timeRange then [] else [rows[0]])
      + DeleteGroup(rows[1..], userId, timeRange)
  }

  /** The rows the insert loop writes: item `k` at position `k + 1`. */
  function RankRows(userId: string, ids: seq<string>, timeRange: string, now: Instant): (r: seq<RankRow>)
    ensures |r| == |ids|
    ensures forall k :: 0 <= k < |ids| ==> r[k] == RankRow(userId, ids[k], timeRange, k + 1, now)
  {
    seq(|ids|, k requires 0 <= k < |ids| => RankRow(userId, ids[k], timeRange, k + 1, now))
  }

  /** Positions in a group run 1, 2, 3, ... in table order. */
  predicate Numbered(g: seq<RankRow>)
  {
    forall k :: 0 <= k < |g| ==> g[k].position == k + 1
  }

  ghost predicate Ranked(rows: seq<RankRow>)
  {
    forall u, r :: Numbered(Group(rows, u, r))
  }

  lemma {:induction false} GroupAppend(a: seq<RankRow>, b: seq<RankRow>, u: string, r: string)
    ensures Group(a + b, u, r) == Group(a, u, r) + Group(b, u, r)
  {
    if a == [] {
      assert a + b == b;
    } else {
      assert (a + b)[1..] == a[1..] + b;
      GroupAppend(a[1..], b, u, r);
    }
  }

  lemma {:induction false} GroupOfDeleted(rows: seq<RankRow>, userId: string, timeRange: string, u: string, r: string)
    ensures Group(DeleteGroup(rows, userId, timeRange), u, r) ==
            if u == userId && r == timeRange then [] else Group(rows, u, r)
  {
    if rows != [] {
      GroupOfDeleted(rows[1..], userId, timeRange, u, r);
      var head := if rows[0].userId == userId && rows[0].timeRange == timeRange then [] else [rows[0]];
      GroupAppend(head, DeleteGroup(rows[1..], userId, timeRange), u, r);
    }
  }

  lemma {:induction false} GroupAll(rows: seq<RankRow>, u: string, r: string)
    requires forall x :: x in rows ==> x.userId == u && x.timeRange == r
    ensures Group(rows, u, r) == rows
  {
    if rows != [] {
      assert rows[0] in rows;
      assert forall x :: x in rows[1..] ==> x in rows;
      GroupAll(rows[1..], u, r);
    }
  }

  lemma {:induction false} GroupNone(rows: seq<RankRow>, u: string, r: string)
    requires forall x :: x in rows ==> !(x.userId == u && x.timeRange == r)
    ensures Group(rows, u, r) == []
  {
    if rows != [] {
      assert rows[0] in rows;
      assert forall x :: x in rows[1..] ==> x in rows;
      GroupNone(rows[1..], u, r);
    }
  }

  lemma GroupOfRankRows(userId: string, ids: seq<string>, timeRange: string, now: Instant, u: string, r: string)
    ensures Group(RankRows(userId, ids, timeRange, now), u, r) ==
            if u == userId && r == timeRange then RankRows(userId, ids, timeRange, now) else []
  {
    var rows := RankRows(userId, ids, timeRange, now);
    assert forall x :: x in rows ==> x.userId == userId && x.timeRange == timeRange;
    if u == userId && r == timeRange {
      GroupAll(rows, u, r);
    } else {
      GroupNone(rows, u, r);
    }
  }

  /** After replacing a group, that group is exactly the new rows and every other group is as before. */
  lemma ReplaceGroup(rows: seq<RankRow>, userId: string, timeRange: string, ids: seq<string>, now: Instant, u: string, r: string)
    ensures Group(DeleteGroup(rows, userId, timeRange) + RankRows(userId, ids, timeRange, now), u, r) ==
            if u == userId && r == timeRange then RankRows(userId, ids, timeRange, now) else Group(rows, u, r)
  {
    GroupAppend(DeleteGroup(rows, userId, timeRange), RankRows(userId, ids, timeRange, now), u, r);
    GroupOfDeleted(rows, userId, timeRange, u, r);
    GroupOfRankRows(userId, ids, timeRange, now, u, r);
  }

  lemma ReplaceKeepsRanked(rows: seq<RankRow>, userId: string, timeRange: string, ids: seq<string>, now: Instant)
    requires Ranked(rows)
    ensures Ranked(DeleteGroup(rows, userId, timeRange) + RankRows(userId, ids, timeRange, now))
  {
    forall u, r ensures Numbered(Group(DeleteGroup(rows, userId, timeRange) + RankRows(userId, ids, timeRange, now), u, r)) {
      ReplaceGroup(rows, userId, timeRange, ids, now, u, r);
    }
  }

  // ---- Duplicate ids in a save ----

  predicate Distinct(xs: seq<string>)
  {
    forall i, j :: 0 <= i < j < |xs| ==> xs[i] != xs[j]
  }

  function TrackIds(ts: seq<Track>): (ids: seq<string>)
    ensures |ids| == |ts| && forall k :: 0 <= k < |ts| ==> ids[k] == ts[k].id
  {
    seq(|ts|, k requires 0 <= k < |ts| => ts[k].id)
  }

  function ArtistIds(arts: seq<Artist>): (ids: seq<string>)
    ensures |ids| == |arts| && forall k :: 0 <= k < |arts| ==> ids[k] == arts[k].id
  {
    seq(|arts|, k requires 0 <= k < |arts| => arts[k].id)
  }

  /** Scanning from `i`, the first index whose id already occurred before it (`|ids|` if none). */
  function FirstRepeatFrom(ids: seq<string>, i: nat): (k: nat)
    requires i <= |ids|
    decreases |ids| - i
    ensures i <= k <= |ids|
    ensures k < |ids| ==> ids[k] in ids[..k]
    ensures forall j :: i <= j < k ==> ids[j] !in ids[..j]
  {
    if i == |ids| then i else if ids[i] in ids[..i] then i else FirstRepeatFrom(ids, i + 1)
  }

  /** Where the plain INSERT of a save first fails: the first id repeating an earlier one. */
  function FirstRepeat(ids: seq<string>): (k: nat)
    ensures k <= |ids|
  {
    FirstRepeatFrom(ids, 0)
  }

  lemma RepeatNotDistinct(xs: seq<string>, i: nat)
    requires i < |xs| && xs[i] in xs[..i]
    ensures !Distinct(xs)
  {
    var j :| 0 <= j < i && xs[..i][j] == xs[i];
    assert xs[j] == xs[i];
  }

  /** The scan finds no repeat exactly when the ids are pairwise distinct. */
  lemma DistinctIffNoRepeat(ids: seq<string>)
    ensures Distinct(ids) <==> FirstRepeat(ids) == |ids|
  {
    var k := FirstRepeat(ids);
    if k == |ids| {
      forall p, q | 0 <= p < q < |ids| ensures ids[p] != ids[q] {
        assert ids[..q][p] == ids[p];
      }
    } else {
      RepeatNotDistinct(ids, k);
    }
  }

  /** How many items of a save get stored in the catalogue: all, or up to the first repeat. */
  function SavedCount(ids: seq<string>): (n: nat)
    ensures n <= |ids|
  {
    var k := FirstRepeat(ids);
    if k == |ids| then k else k + 1
  }

  /** The scan stops at an id that repeats an earlier one: the items up to it are saved. */
  lemma RepeatStops(ids: seq<string>, i: nat)
    requires i < |ids| && FirstRepeatFrom(ids, i) == FirstRepeat(ids) && ids[i] in ids[..i]
    ensures FirstRepeat(ids) == i < |ids| && SavedCount(ids) == i + 1
  {
  }

  /** The scan goes past an id that repeats none before it. */
  lemma RepeatContinues(ids: seq<string>, i: nat)
    requires i < |ids| && FirstRepeatFrom(ids, i) == FirstRepeat(ids) && ids[i] !in ids[..i]
    ensures FirstRepeatFrom(ids, i + 1) == FirstRepeat(ids)
  {
  }

  /** Without a repeat every item is saved. */
  lemma NoRepeatSavesAll(ids: seq<string>)
    requires FirstRepeatFrom(ids, |ids|) == FirstRepeat(ids)
    ensures FirstRepeat(ids) == |ids| && SavedCount(ids) == |ids|
  {
  }

  // ---- Staleness ----

  /** `is_data_stale` of the database: stale without a row, else when strictly more than `days` days old. */
  function SyncStale(row: Option<SyncRow>, now: Instant, days: int): (stale: bool)
    ensures row.None? ==> stale
    ensures row.Some? ==> (stale <==> row.value.lastSynced + days * DAY < now)
  {
    row.None? || now - row.value.lastSynced > days * DAY
  }

  /** Once stale, data stays stale as the clock moves on, and a shorter threshold agrees. */
  lemma SyncStaleMonotone(row: Option<SyncRow>, now: Instant, later: Instant, days: int, fewer: int)
    requires now <= later && fewer <= days
    ensures SyncStale(row, now, days) ==> SyncStale(row, later, days) && SyncStale(row, now, fewer)
  {
  }

  // ---- Queries ----

  /** `if limit:` appends `LIMIT n`; SQLite treats a negative limit as no limit. */
  function ApplyLimit<T>(xs: seq<T>, limit: Option<int>): (r: seq<T>)
    ensures limit.Some? && limit.value > 0 ==> r == Prefix(xs, limit.value)
    ensures !(limit.Some? && limit.value > 0) ==> r == xs
  {
    if limit.Some? && limit.value > 0 then Prefix(xs, limit.value) else xs
  }

  /** Names of the artists linked to a track, in table order (what `GROUP_CONCAT` sees). */
  function LinkedNames(c: Catalog, links: seq<LinkRow>, trackId: string): seq<string>
  {
    if links == [] then []
    else
      (if links[0].trackId == trackId && links[0].artistId in c.artists then [c.artists[links[0].artistId].name] else [])
      + LinkedNames(c, links[1..], trackId)
  }

  function LinkedIds(c: Catalog, links: seq<LinkRow>, trackId: string): seq<string>
  {
    if links == [] then []
    else
      (if links[0].trackId == trackId && links[0].artistId in c.artists then [links[0].artistId] else [])
      + LinkedIds(c, links[1..], trackId)
  }

  function GenresOf(rows: seq<GenreRow>, artistId: string): seq<string>
  {
    if rows == [] then []
    else (if rows[0].artistId == artistId then [rows[0].genre] else []) + GenresOf(rows[1..], artistId)
  }

  /** `GROUP_CONCAT(x, ', ')`: NULL over no rows. */
  function GroupConcat(xs: seq<string>): Option<string>
  {
    if xs == [] then None else Some(Join(xs, ", "))
  }

  /** `s.split(', ') if s else []`. */
  function SplitConcat(s: Option<string>): seq<string>
  {
    if s.None? || s.value == "" then [] else Split(s.value, ", ")
  }

  /**
   * What the concatenate-then-split round trip returns: the list itself, unless it is a single
   * empty name; it is lossless whenever no name contains ", ".
   */
  lemma ConcatSplitRoundTrip(xs: seq<string>)
    requires forall i :: 0 <= i < |xs| ==> !Contains(xs[i], ", ")
    ensures SplitConcat(GroupConcat(xs)) == if xs == [""] then [] else xs
  {
    if xs != [] {
      SplitJoinComma(xs);
      if Join(xs, ", ") == "" {
        assert |xs| == 1;
      }
    }
  }

  lemma ConcatSplitWhenCommaFree(xs: seq<string>)
    ensures (forall x :: x in xs ==> !Contains(x, ", ")) ==>
      SplitConcat(GroupConcat(xs)) == if xs == [""] then [] else xs
  {
    if forall x :: x in xs ==> !Contains(x, ", ") {
      ConcatSplitRoundTrip(xs);
    }
  }

  /** A single name "a, b" (as in "Earth, Wind & Fire") comes back as the two artists a and b. */
  lemma ConcatSplitsCommaName(a: string, b: string)
    requires forall i :: 0 <= i < |a| ==> a[i] != ','
    requires forall i :: 0 <= i < |b| ==> b[i] != ','
    ensures SplitConcat(GroupConcat([a + ", " + b])) == [a, b]
  {
    NoCommaNoContains(a);
    NoCommaNoContains(b);
    SplitJoinComma([a, b]);
    assert [a, b][1..] == [b];
    assert Join([a, b], ", ") == a + ", " + b;
  }

  lemma NoCommaNoContains(s: string)
    requires forall i :: 0 <= i < |s| ==> s[i] != ','
    ensures !Contains(s, ", ")
  {
    forall i | 0 <= i <= |s| ensures !Occurs(s, ", ", i) {
      if i + 2 <= |s| { assert s[i..i + 2][0] == s[i]; }
    }
  }

  datatype TopTrack = TopTrack(trackId: string, row: TrackRow, position: nat, artists: seq<string>, artistIds: seq<string>)

  datatype TopArtist = TopArtist(artistId: string, row: ArtistRow, position: nat, genres: seq<string>)

  /** A track's artist names and artist ids come from the same link rows, one of each per row. */
  lemma {:induction false} LinkedNamesAndIds(c: Catalog, links: seq<LinkRow>, trackId: string)
    ensures |LinkedNames(c, links, trackId)| == |LinkedIds(c, links, trackId)|
  {
    if links != [] {
      LinkedNamesAndIds(c, links[1..], trackId);
    }
  }

  /**
   * One row of `get_user_top_tracks`: both concatenations are split when the names'
   * concatenation is non-empty, and both lists are empty otherwise (also when the only linked
   * artist has an empty name, whose id is then dropped too).
   */
  function TopTrackOf(c: Catalog, rr: RankRow): (t: TopTrack)
    requires rr.itemId in c.tracks
    ensures t.trackId == rr.itemId && t.row == c.tracks[rr.itemId] && t.position == rr.position
    ensures t.artists == [] <==> t.artistIds == []
    ensures t.artists == [] <==> LinkedNames(c, c.links, rr.itemId) in {[], [""]}
  {
    var names := LinkedNames(c, c.links, rr.itemId);
    var ids := LinkedIds(c, c.links, rr.itemId);
    LinkedNamesAndIds(c, c.links, rr.itemId);
    var nameText := GroupConcat(names);
    if nameText.Some? && nameText.value != "" then
      TopTrack(rr.itemId, c.tracks[rr.itemId], rr.position, Split(nameText.value, ", "), Split(GroupConcat(ids).value, ", "))
    else
      assert |names| == 1 ==> Join(names, ", ") == names[0] && names == [names[0]];
      assert |names| > 1 ==> |Join(names, ", ")| >= 2;
      assert names in {[], [""]};
      TopTrack(rr.itemId, c.tracks[rr.itemId], rr.position, [], [])
  }

  /**
   * When no linked name or id holds ", " the row lists its artists' names and ids exactly, in
   * link order and pairwise, unless the only artist has an empty name.
   */
  lemma TopTrackArtistsReadBack(c: Catalog, rr: RankRow)
    requires rr.itemId in c.tracks
    requires forall n :: n in LinkedNames(c, c.links, rr.itemId) ==> !Contains(n, ", ")
    requires forall i :: i in LinkedIds(c, c.links, rr.itemId) ==> !Contains(i, ", ")
    ensures var names := LinkedNames(c, c.links, rr.itemId);
      var t := TopTrackOf(c, rr);
      names != [""] ==> t.artists == names && t.artistIds == LinkedIds(c, c.links, rr.itemId) && |t.artists| == |t.artistIds|
  {
    var names := LinkedNames(c, c.links, rr.itemId);
    var ids := LinkedIds(c, c.links, rr.itemId);
    LinkedNamesAndIds(c, c.links, rr.itemId);
    if names != [] && names != [""] {
      SplitJoinComma(names);
      SplitJoinComma(ids);
      assert |names| > 1 ==> |Join(names, ", ")| >= 2;
    }
  }

  /**
   * The two edge cases of the split: a track whose only artist has an empty name lists no
   * artist ids although it has one, and an artist with an empty id yields the id "".
   */
  lemma TopTrackSplitEdges()
    ensures var c := Catalog(map["t" := TrackRow("Song", None, None, None)], map["a1" := ArtistRow("", None, None)],
                             [LinkRow("t", "a1", 0)], []);
            TopTrackOf(c, RankRow("u", "t", "short_term", 1, 0)).artistIds == []
    ensures var c := Catalog(map["t" := TrackRow("Song", None, None, None)], map["" := ArtistRow("X", None, None)],
                             [LinkRow("t", "", 0)], []);
            TopTrackOf(c, RankRow("u", "t", "short_term", 1, 0)).artistIds == [""]
  {
    var c1 := Catalog(map["t" := TrackRow("Song", None, None, None)], map["a1" := ArtistRow("", None, None)],
                      [LinkRow("t", "a1", 0)], []);
    assert LinkedNames(c1, c1.links, "t") == [""];
    var c2 := Catalog(map["t" := TrackRow("Song", None, None, None)], map["" := ArtistRow("X", None, None)],
                      [LinkRow("t", "", 0)], []);
    assert LinkedNames(c2, c2.links, "t") == ["X"];
    assert LinkedIds(c2, c2.links, "t") == [""];
    assert Find("", ", ") == -1;
    assert Find("X", ", ") == -1;
  }

  /**
   * One row of `get_user_top_artists`: its genres split back from their concatenation; when no
   * genre holds ", " they are the artist's genre rows in table order (none for a single empty
   * genre).
   */
  function TopArtistOf(c: Catalog, rr: RankRow): (a: TopArtist)
    requires rr.itemId in c.artists
    ensures a.artistId == rr.itemId && a.row == c.artists[rr.itemId] && a.position == rr.position
    ensures (forall g :: g in GenresOf(c.genres, rr.itemId) ==> !Contains(g, ", ")) ==>
      a.genres == if GenresOf(c.genres, rr.itemId) == [""] then [] else GenresOf(c.genres, rr.itemId)
  {
    var gs := GenresOf(c.genres, rr.itemId);
    ConcatSplitWhenCommaFree(gs);
    TopArtist(rr.itemId, c.artists[rr.itemId], rr.position, SplitConcat(GroupConcat(gs)))
  }

  predicate RefersTo(rows: seq<RankRow>, keys: set<string>)
  {
    forall x :: x in rows ==> x.itemId in keys
  }

  /**
   * `get_user_top_tracks`: the user's rows for the range joined with their tracks, in position
   * order, cut to `limit`. With positions numbered 1, 2, ... the i-th result is at position i + 1.
   */
  function TopTracksOf(c: Catalog, rows: seq<RankRow>, userId: string, timeRange: string, limit: Option<int>): (res: seq<TopTrack>)
    requires RefersTo(rows, c.tracks.Keys) && Ranked(rows)
    ensures var g := ApplyLimit(Group(rows, userId, timeRange), limit);
      && |res| == |g|
      && forall i :: 0 <= i < |res| ==> res[i] == TopTrackOf(c, g[i]) && res[i].position == i + 1
  {
    var g := ApplyLimit(Group(rows, userId, timeRange), limit);
    assert Numbered(Group(rows, userId, timeRange));
    seq(|g|, i requires 0 <= i < |g| => TopTrackOf(c, g[i]))
  }

  function TopArtistsOf(c: Catalog, rows: seq<RankRow>, userId: string, timeRange: string, limit: Option<int>): (res: seq<TopArtist>)
    requires RefersTo(rows, c.artists.Keys) && Ranked(rows)
    ensures var g := ApplyLimit(Group(rows, userId, timeRange), limit);
      && |res| == |g|
      && forall i :: 0 <= i < |res| ==> res[i] == TopArtistOf(c, g[i]) && res[i].position == i + 1
  {
    var g := ApplyLimit(Group(rows, userId, timeRange), limit);
    assert Numbered(Group(rows, userId, timeRange));
    seq(|g|, i requires 0 <= i < |g| => TopArtistOf(c, g[i]))
  }

  // ---- Listening statistics ----

  function DurationOf(c: Catalog, trackId: string): int
  {
    if trackId in c.tracks && c.tracks[trackId].durationMs.Some? then c.tracks[trackId].durationMs.value else 0
  }

  function LinkCount(links: seq<LinkRow>, trackId: string): nat
  {
    if links == [] then 0 else (if links[0].trackId == trackId then 1 else 0) + LinkCount(links[1..], trackId)
  }

  /**
   * `SUM(t.duration_ms)` over the ranking rows LEFT JOINed with `track_artists`, as written:
   * each track contributes once per linked artist (once when it has none).
   */
  function JoinedTotalMs(c: Catalog, g: seq<RankRow>): int
  {
    if g == [] then 0
    else DurationOf(c, g[0].itemId) * Max(1, LinkCount(c.links, g[0].itemId)) + JoinedTotalMs(c, g[1..])
  }

  /** The total the statistic is meant to be: each ranked track's duration once. */
  function TotalMs(c: Catalog, g: seq<RankRow>): int
  {
    if g == [] then 0 else DurationOf(c, g[0].itemId) + TotalMs(c, g[1..])
  }

  datatype ListeningStats = ListeningStats(totalMinutes: int, totalHours: int, totalTracks: nat,
                                           uniqueArtistsFromTracks: nat, totalArtists: nat, uniqueGenres: nat)

  /** `total_ms // 60000 if total_ms else 0` and `(total_ms // 60000) // 60`. */
  function MinutesAndHours(totalMs: int): (int, int)
  {
    if totalMs != 0 then (totalMs / 60000, totalMs / 60000 / 60) else (0, 0)
  }

  /** Whole hours are the total cut to whole hours: dividing twice is dividing once. */
  lemma HoursAreWholeHours(totalMs: int)
    ensures MinutesAndHours(totalMs).1 == totalMs / 3_600_000
    ensures MinutesAndHours(totalMs).0 == totalMs / 60000
  {
    var m := totalMs / 60000;
    var h := m / 60;
    assert totalMs == 60000 * m + totalMs % 60000;
    assert m == 60 * h + m % 60;
    var rest := 60000 * (m % 60) + totalMs % 60000;
    assert totalMs == 3_600_000 * h + rest;
    assert 0 <= rest < 3_600_000;
  }

  function ItemIds(g: seq<RankRow>): set<string>
  {
    set x | x in g :: x.itemId
  }

  /** The distinct known ids of a group are at most as many as its rows. */
  lemma {:induction false} KnownIdsBound(g: seq<RankRow>, keys: set<string>)
    ensures |set x | x in ItemIds(g) && x in keys| <= |g|
  {
    if g != [] {
      KnownIdsBound(g[1..], keys);
      var rest := set x | x in ItemIds(g[1..]) && x in keys;
      var all := set x | x in ItemIds(g) && x in keys;
      assert all <= rest + {g[0].itemId} by {
        forall x | x in ItemIds(g) ensures x in ItemIds(g[1..]) || x == g[0].itemId {
          var r :| r in g && r.itemId == x;
          var k :| 0 <= k < |g| && g[k] == r;
          if k > 0 { assert g[1..][k - 1] == r; }
        }
      }
      SubsetSize(all, rest + {g[0].itemId});
    }
  }

  lemma {:induction false} SubsetSize<T>(a: set<T>, b: set<T>)
    requires a <= b
    ensures |a| <= |b|
  {
    if a != {} {
      var x :| x in a;
      SubsetSize(a - {x}, b - {x});
    }
  }

  /**
   * `get_listening_stats` with each track's duration counted once: the minutes and hours are
   * the total cut to whole minutes and whole hours, and the track and artist counts are the
   * distinct stored items of the user's rankings, never more than the rows. This is the
   * corrected total; the joined SUM as written is `JoinedMinutes`, and the two agree whenever
   * no ranked track with a duration has more than one artist link.
   */
  function ListeningStatsOf(c: Catalog, trackRows: seq<RankRow>, artistRows: seq<RankRow>, userId: string, timeRange: string): (s: ListeningStats)
    ensures var total := TotalMs(c, Group(trackRows, userId, timeRange));
      s.totalMinutes == total / 60000 && s.totalHours == total / 3_600_000
    ensures s.totalTracks <= |Group(trackRows, userId, timeRange)|
    ensures s.totalArtists <= |Group(artistRows, userId, timeRange)|
    ensures (forall x :: x in Group(trackRows, userId, timeRange) ==>
               LinkCount(c.links, x.itemId) <= 1 || DurationOf(c, x.itemId) == 0) ==>
            s.totalMinutes == JoinedMinutes(c, trackRows, userId, timeRange)
  {
    var tg := Group(trackRows, userId, timeRange);
    var ag := Group(artistRows, userId, timeRange);
    HoursAreWholeHours(TotalMs(c, tg));
    assert (forall x :: x in tg ==> LinkCount(c.links, x.itemId) <= 1 || DurationOf(c, x.itemId) == 0) ==>
           JoinedTotalMs(c, tg) == TotalMs(c, tg) by {
      if forall x :: x in tg ==> LinkCount(c.links, x.itemId) <= 1 || DurationOf(c, x.itemId) == 0 {
        JoinedTotalAgrees(c, tg);
      }
    }
    KnownIdsBound(tg, c.tracks.Keys);
    KnownIdsBound(ag, c.artists.Keys);
    var (minutes, hours) := MinutesAndHours(TotalMs(c, tg));
    var trackIds := set x | x in ItemIds(tg) && x in c.tracks;
    var artistIds := set x | x in ItemIds(ag) && x in c.artists;
    ListeningStats(
      minutes, hours,
      |trackIds|,
      |set l | l in c.links && l.trackId in trackIds :: l.artistId|,
      |artistIds|,
      |set g | g in c.genres && g.artistId in artistIds :: g.genre|)
  }

  /** The minutes `get_listening_stats` reports as written. */
  function JoinedMinutes(c: Catalog, trackRows: seq<RankRow>, userId: string, timeRange: string): int
  {
    MinutesAndHours(JoinedTotalMs(c, Group(trackRows, userId, timeRange))).0
  }

  /** The two sums agree exactly when no ranked track has more than one artist link (or no duration). */
  lemma {:induction false} JoinedTotalAgrees(c: Catalog, g: seq<RankRow>)
    requires forall x :: x in g ==> LinkCount(c.links, x.itemId) <= 1 || DurationOf(c, x.itemId) == 0
    ensures JoinedTotalMs(c, g) == TotalMs(c, g)
  {
    if g != [] {
      assert g[0] in g;
      JoinedTotalAgrees(c, g[1..]);
    }
  }

  /** One ranked one-minute track with two credited artists is reported as two minutes. */
  lemma JoinedTotalDoubleCounts()
    ensures var c := Catalog(map["t" := TrackRow("Song", None, Some(60000), None)],
                             map["a" := ArtistRow("A", None, None), "b" := ArtistRow("B", None, None)],
                             [LinkRow("t", "a", 0), LinkRow("t", "b", 1)], []);
            var rows := [RankRow("u", "t", "short_term", 1, 0)];
            JoinedMinutes(c, rows, "u", "short_term") == 2 &&
            ListeningStatsOf(c, rows, [], "u", "short_term").totalMinutes == 1
  {
    var c := Catalog(map["t" := TrackRow("Song", None, Some(60000), None)],
                     map["a" := ArtistRow("A", None, None), "b" := ArtistRow("B", None, None)],
                     [LinkRow("t", "a", 0), LinkRow("t", "b", 1)], []);
    var rows := [RankRow("u", "t", "short_term", 1, 0)];
    assert Group(rows, "u", "short_term") == rows;
    assert LinkCount(c.links, "t") == 2;
  }

  // ---- The database ----

  class Database {
    var tracks: map<string, TrackRow>
    var artists: map<string, ArtistRow>
    var trackArtists: seq<LinkRow>
    var artistGenres: seq<GenreRow>
    var userTopTracks: seq<RankRow>
    var userTopArtists: seq<RankRow>
    var syncMetadata: map<SyncKey, SyncRow>

    function Cat(): Catalog
      reads this
    {
      Catalog(tracks, artists, trackArtists, artistGenres)
    }

    /** References resolve, and each (user, time range) ranking is numbered 1, 2, 3, ... */
    ghost predicate Valid()
      reads this
    {
      && CatalogValid(Cat())
      && RefersTo(userTopTracks, tracks.Keys) && Ranked(userTopTracks)
      && RefersTo(userTopArtists, artists.Keys) && Ranked(userTopArtists)
    }

    constructor()
      ensures Valid()
      ensures Cat() == Catalog(map[], map[], [], []) && userTopTracks == [] && userTopArtists == [] && syncMetadata == map[]
    {
      tracks, artists, trackArtists, artistGenres := map[], map[], [], [];
      userTopTracks, userTopArtists, syncMetadata := [], [], map[];
    }

    /** `save_artist`. */
    method SaveArtist(a: Artist)
      requires Valid()
      modifies this
      ensures Valid()
      ensures Cat() == WithArtist(old(Cat()), a)
      ensures userTopTracks == old(userTopTracks) && userTopArtists == old(userTopArtists)
      ensures syncMetadata == old(syncMetadata)
    {
      artists := artists[a.id := ArtistRowOf(a)];
      for i := 0 to |a.genres|
        invariant artists == old(artists)[a.id := ArtistRowOf(a)]
        invariant artistGenres == GenresAfter(old(artistGenres), a.id, a.genres[..i])
        invariant tracks == old(tracks) && trackArtists == old(trackArtists)
        invariant userTopTracks == old(userTopTracks) && userTopArtists == old(userTopArtists)
        invariant syncMetadata == old(syncMetadata)
      {
        assert a.genres[..i + 1][..i] == a.genres[..i];
        artistGenres := UpsertGenre(artistGenres, GenreRow(a.id, a.genres[i]));
      }
      assert a.genres[..|a.genres|] == a.genres;
      WithArtistSpec(old(Cat()), a);
    }

    /** `save_track`. */
    method SaveTrack(t: Track)
      requires Valid()
      modifies this
      ensures Valid()
      ensures Cat() == WithTrack(old(Cat()), t)
      ensures userTopTracks == old(userTopTracks) && userTopArtists == old(userTopArtists)
      ensures syncMetadata == old(syncMetadata)
    {
      tracks := tracks[t.id := TrackRowOf(t)];
      assert CatalogValid(Cat());
      ghost var start := Cat();
      for idx := 0 to |t.artists|
        invariant Valid() && t.id in tracks
        invariant Cat() == LinkArtists(start, t.id, t.artists[..idx])
        invariant userTopTracks == old(userTopTracks) && userTopArtists == old(userTopArtists)
        invariant syncMetadata == old(syncMetadata)
      {
        LinkArtistsStep(start, t.id, t.artists, idx);
        SaveArtist(t.artists[idx]);
        UpsertLinkValid(Cat(), LinkRow(t.id, t.artists[idx].id, idx));
        trackArtists := UpsertLink(trackArtists, LinkRow(t.id, t.artists[idx].id, idx));
      }
      assert t.artists[..|t.artists|] == t.artists;
    }

    /**
     * The loop of `save_user_top_tracks` after the delete: save each item and insert its
     * row, stopping at the first primary-key conflict. Returns whether every insert succeeded and
     * the ranking table as the transaction would commit it.
     */
    method InsertTracks(userId: string, ts: seq<Track>, timeRange: string, now: Instant) returns (ok: bool, rows: seq<RankRow>)
      requires Valid()
      modifies this
      ensures Valid()
      ensures ok <==> FirstRepeat(TrackIds(ts)) == |ts|
      ensures Cat() == WithTracks(old(Cat()), ts[..SavedCount(TrackIds(ts))])
      ensures ok ==> rows == DeleteGroup(old(userTopTracks), userId, timeRange) + RankRows(userId, TrackIds(ts), timeRange, now)
      ensures userTopTracks == old(userTopTracks) && userTopArtists == old(userTopArtists)
      ensures syncMetadata == old(syncMetadata)
    {
      ghost var ids := TrackIds(ts);
      ghost var c0 := Cat();
      rows := DeleteGroup(userTopTracks, userId, timeRange);
      ok := true;
      var i := 0;
      while i < |ts|
        invariant 0 <= i <= |ts|
        invariant Valid()
        invariant FirstRepeatFrom(ids, i) == FirstRepeat(ids)
        invariant Cat() == WithTracks(c0, ts[..i])
        invariant rows == DeleteGroup(old(userTopTracks), userId, timeRange) + RankRows(userId, ids[..i], timeRange, now)
        invariant userTopTracks == old(userTopTracks) && userTopArtists == old(userTopArtists)
        invariant syncMetadata == old(syncMetadata)
      {
        WithTracksSnoc(c0, ts, i);
        SaveTrack(ts[i]);
        HasRowIsRepeat(old(userTopTracks), userId, timeRange, ids[..i], now, ts[i].id);
        if HasRow(rows, userId, ts[i].id, timeRange) {
          RepeatStops(ids, i);
          ok := false;
          break;
        }
        RepeatContinues(ids, i);
        RankRowsSnoc(userId, ids, i, timeRange, now);
        rows := rows + [RankRow(userId, ts[i].id, timeRange, i + 1, now)];
        i := i + 1;
      }
      if ok {
        NoRepeatSavesAll(ids);
        assert ts[..|ts|] == ts && ids[..|ids|] == ids;
      }
    }

    /**
     * `save_user_top_tracks` as one transaction: delete the user's rows for the range, then for
     * each track (from position 1) save it and insert its row; then record the sync and commit.
     * A repeated track id breaks the primary key and the error rolls the whole save back.
     */
    method SaveUserTopTracks(userId: string, ts: seq<Track>, timeRange: string, now: Instant) returns (ok: bool)
      requires Valid()
      modifies this
      ensures Valid()
      ensures ok <==> Distinct(TrackIds(ts))
      ensures Cat() == if ok then WithTracks(old(Cat()), ts) else old(Cat())
      ensures userTopTracks == if ok then DeleteGroup(old(userTopTracks), userId, timeRange) + RankRows(userId, TrackIds(ts), timeRange, now)
                               else old(userTopTracks)
      ensures syncMetadata == if ok then old(syncMetadata)[SyncKey(userId, "tracks", timeRange) := SyncRow(now, |ts|)]
                              else old(syncMetadata)
      ensures userTopArtists == old(userTopArtists)
    {
      var tracks0, artists0, links0, genres0 := tracks, artists, trackArtists, artistGenres;
      var rows;
      ok, rows := InsertTracks(userId, ts, timeRange, now);
      ghost var ids := TrackIds(ts);
      DistinctIffNoRepeat(ids);
      if ok {
        assert ts[..|ts|] == ts;
        WithTracksSpec(old(Cat()), ts);
        ReplaceKeepsRanked(old(userTopTracks), userId, timeRange, ids, now);
        userTopTracks := rows;
        syncMetadata := syncMetadata[SyncKey(userId, "tracks", timeRange) := SyncRow(now, |ts|)];
      } else {
        tracks, artists, trackArtists, artistGenres := tracks0, artists0, links0, genres0;
        assert Cat() == old(Cat());
      }
    }

    /**
     * The loop of `save_user_top_artists` after the delete: save each item and insert its
     * row, stopping at the first primary-key conflict. Returns whether every insert succeeded and
     * the ranking table as the transaction would commit it.
     */
    method InsertArtists(userId: string, arts: seq<Artist>, timeRange: string, now: Instant) returns (ok: bool, rows: seq<RankRow>)
      requires Valid()
      modifies this
      ensures Valid()
      ensures ok <==> FirstRepeat(ArtistIds(arts)) == |arts|
      ensures Cat() == WithArtists(old(Cat()), arts[..SavedCount(ArtistIds(arts))])
      ensures ok ==> rows == DeleteGroup(old(userTopArtists), userId, timeRange) + RankRows(userId, ArtistIds(arts), timeRange, now)
      ensures userTopTracks == old(userTopTracks) && userTopArtists == old(userTopArtists)
      ensures syncMetadata == old(syncMetadata)
    {
      ghost var ids := ArtistIds(arts);
      ghost var c0 := Cat();
      rows := DeleteGroup(userTopArtists, userId, timeRange);
      ok := true;
      var i := 0;
      while i < |arts|
        invariant 0 <= i <= |arts|
        invariant Valid()
        invariant FirstRepeatFrom(ids, i) == FirstRepeat(ids)
        invariant Cat() == WithArtists(c0, arts[..i])
        invariant rows == DeleteGroup(old(userTopArtists), userId, timeRange) + RankRows(userId, ids[..i], timeRange, now)
        invariant userTopTracks == old(userTopTracks) && userTopArtists == old(userTopArtists)
        invariant syncMetadata == old(syncMetadata)
      {
        WithArtistsSnoc(c0, arts, i);
        SaveArtist(arts[i]);
        HasRowIsRepeat(old(userTopArtists), userId, timeRange, ids[..i], now, arts[i].id);
        if HasRow(rows, userId, arts[i].id, timeRange) {
          RepeatStops(ids, i);
          ok := false;
          break;
        }
        RepeatContinues(ids, i);
        RankRowsSnoc(userId, ids, i, timeRange, now);
        rows := rows + [RankRow(userId, arts[i].id, timeRange, i + 1, now)];
        i := i + 1;
      }
      if ok {
        NoRepeatSavesAll(ids);
        assert arts[..|arts|] == arts && ids[..|ids|] == ids;
      }
    }

    /** `save_user_top_artists`, the same transaction over artists. */
    method SaveUserTopArtists(userId: string, arts: seq<Artist>, timeRange: string, now: Instant) returns (ok: bool)
      requires Valid()
      modifies this
      ensures Valid()
      ensures ok <==> Distinct(ArtistIds(arts))
      ensures Cat() == if ok then WithArtists(old(Cat()), arts) else old(Cat())
      ensures userTopArtists == if ok then DeleteGroup(old(userTopArtists), userId, timeRange) + RankRows(userId, ArtistIds(arts), timeRange, now)
                                else old(userTopArtists)
      ensures syncMetadata == if ok then old(syncMetadata)[SyncKey(userId, "artists", timeRange) := SyncRow(now, |arts|)]
                              else old(syncMetadata)
      ensures userTopTracks == old(userTopTracks)
    {
      var tracks0, artists0, links0, genres0 := tracks, artists, trackArtists, artistGenres;
      var rows;
      ok, rows := InsertArtists(userId, arts, timeRange, now);
      ghost var ids := ArtistIds(arts);
      DistinctIffNoRepeat(ids);
      if ok {
        assert arts[..|arts|] == arts;
        WithArtistsSpec(old(Cat()), arts);
        ReplaceKeepsRanked(old(userTopArtists), userId, timeRange, ids, now);
        userTopArtists := rows;
        syncMetadata := syncMetadata[SyncKey(userId, "artists", timeRange) := SyncRow(now, |arts|)];
      } else {
        tracks, artists, trackArtists, artistGenres := tracks0, artists0, links0, genres0;
        assert Cat() == old(Cat());
      }
    }

    /** `is_data_stale` of the database, with the clock reading `now`. */
    function IsDataStale(userId: string, dataType: string, timeRange: string, now: Instant, days: int): (stale: bool)
      reads this
      ensures SyncKey(userId, dataType, timeRange) !in syncMetadata ==> stale
      ensures var key := SyncKey(userId, dataType, timeRange);
        key in syncMetadata ==> (stale <==> syncMetadata[key].lastSynced + days * DAY < now)
    {
      var key := SyncKey(userId, dataType, timeRange);
      SyncStale(if key in syncMetadata then Some(syncMetadata[key]) else None, now, days)
    }

    /** `get_user_top_tracks`: the user's tracks for the range in rank order, cut to `limit`. */
    function GetUserTopTracks(userId: string, timeRange: string, limit: Option<int>): (res: seq<TopTrack>)
      requires Valid()
      reads this
      ensures var g := ApplyLimit(Group(userTopTracks, userId, timeRange), limit);
        |res| == |g| && forall i :: 0 <= i < |res| ==> res[i].trackId == g[i].itemId && res[i].position == i + 1
    {
      TopTracksOf(Cat(), userTopTracks, userId, timeRange, limit)
    }

    /** `get_user_top_artists`: the user's artists for the range in rank order, cut to `limit`. */
    function GetUserTopArtists(userId: string, timeRange: string, limit: Option<int>): (res: seq<TopArtist>)
      requires Valid()
      reads this
      ensures var g := ApplyLimit(Group(userTopArtists, userId, timeRange), limit);
        |res| == |g| && forall i :: 0 <= i < |res| ==> res[i].artistId == g[i].itemId && res[i].position == i + 1
    {
      TopArtistsOf(Cat(), userTopArtists, userId, timeRange, limit)
    }

    /**
     * `get_listening_stats`, with each track's duration counted once: the corrected total of
     * the joined SUM as written (`JoinedMinutes`), which it matches when no ranked track with a
     * duration has two artist links.
     */
    function GetListeningStats(userId: string, timeRange: string): (s: ListeningStats)
      reads this
      ensures s.totalMinutes == TotalMs(Cat(), Group(userTopTracks, userId, timeRange)) / 60000
      ensures (forall x :: x in Group(userTopTracks, userId, timeRange) ==>
                 LinkCount(trackArtists, x.itemId) <= 1 || DurationOf(Cat(), x.itemId) == 0) ==>
              s.totalMinutes == JoinedMinutes(Cat(), userTopTracks, userId, timeRange)
      ensures s.totalTracks <= |Group(userTopTracks, userId, timeRange)|
      ensures s.totalArtists <= |Group(userTopArtists, userId, timeRange)|
    {
      ListeningStatsOf(Cat(), userTopTracks, userTopArtists, userId, timeRange)
    }
  }

  /** The primary key (user, item, time range) is already taken. */
  predicate HasRow(rows: seq<RankRow>, userId: string, itemId: string, timeRange: string)
  {
    exists k :: 0 <= k < |rows| && rows[k].userId == userId && rows[k].itemId == itemId && rows[k].timeRange == timeRange
  }

  /** After the delete, the insert of `id` conflicts exactly when `id` was already inserted by this save. */
  lemma HasRowIsRepeat(rows: seq<RankRow>, userId: string, timeRange: string, ids: seq<string>, now: Instant, id: string)
    ensures HasRow(DeleteGroup(rows, userId, timeRange) + RankRows(userId, ids, timeRange, now), userId, id, timeRange) <==> id in ids
  {
    var all := DeleteGroup(rows, userId, timeRange) + RankRows(userId, ids, timeRange, now);
    var d := DeleteGroup(rows, userId, timeRange);
    if id in ids {
      var j :| 0 <= j < |ids| && ids[j] == id;
      assert all[|d| + j].itemId == id;
    }
    if HasRow(all, userId, id, timeRange) {
      var k :| 0 <= k < |all| && all[k].userId == userId && all[k].itemId == id && all[k].timeRange == timeRange;
      forall m | 0 <= m < |d|
        ensures !(all[m].userId == userId && all[m].timeRange == timeRange)
      {
        assert all[m] == d[m] && d[m] in d;
      }
      var rr := RankRows(userId, ids, timeRange, now);
      assert all[k] == rr[k - |d|] && rr[k - |d|].itemId == ids[k - |d|];
    }
  }

  lemma RankRowsSnoc(userId: string, ids: seq<string>, i: nat, timeRange: string, now: Instant)
    requires i < |ids|
    ensures RankRows(userId, ids[..i + 1], timeRange, now) ==
            RankRows(userId, ids[..i], timeRange, now) + [RankRow(userId, ids[i], timeRange, i + 1, now)]
  {
  }

  lemma LinkArtistsStep(c: Catalog, trackId: string, arts: seq<Artist>, i: nat)
    requires i < |arts|
    ensures LinkArtists(c, trackId, arts[..i + 1]) ==
            var w := WithArtist(LinkArtists(c, trackId, arts[..i]), arts[i]);
            w.(links := UpsertLink(w.links, LinkRow(trackId, arts[i].id, i)))
  {
    assert arts[..i + 1][..i] == arts[..i];
  }

  lemma WithTracksSnoc(c: Catalog, ts: seq<Track>, i: nat)
    requires i < |ts|
    ensures WithTracks(c, ts[..i + 1]) == WithTrack(WithTracks(c, ts[..i]), ts[i])
  {
    assert ts[..i + 1][..i] == ts[..i];
  }

  lemma WithArtistsSnoc(c: Catalog, arts: seq<Artist>, i: nat)
    requires i < |arts|
    ensures WithArtists(c, arts[..i + 1]) == WithArtist(WithArtists(c, arts[..i]), arts[i])
  {
    assert arts[..i + 1][..i] == arts[..i];
  }

  // ---- Connections and the write lock, as written ----

  /**
   * The writes of the saves as SQLite sees them. Every connection runs in deferred mode: its
   * first INSERT or DELETE takes the database's single write lock (WAL mode allows one
   * writer), which it keeps until it commits or is closed. Each save opens its own connection,
   * so a nested save asks for the lock while its caller still holds it; after the busy timeout
   * that write fails with "database is locked", and the error aborts every save above it,
   * whose connections close without committing.
   */
  datatype Stmt = Write(conn: nat) | Commit(conn: nat)

  /** Whether a statement sequence runs to its end, with `holder` holding the write lock. */
  function Runs(trace: seq<Stmt>, holder: Option<nat>): bool
  {
    if trace == [] then true
    else match trace[0]
      case Write(c) => (holder.None? || holder == Some(c)) && Runs(trace[1..], Some(c))
      case Commit(c) => Runs(trace[1..], if holder == Some(c) then None else holder)
  }

  /** The connection a nested save writes on: its own (as written) or its caller's. */
  function Child(conn: nat, shared: bool): nat
  {
    if shared then conn else conn + 1
  }

  /**
   * `save_artist` on connection `conn`: the artist row, one row per genre, then a commit when
   * the save opened the connection itself (`owns`); on its caller's connection it leaves the
   * commit to the caller.
   */
  function ArtistWrites(a: Artist, conn: nat, owns: bool): seq<Stmt>
  {
    [Write(conn)] + seq(|a.genres|, _ => Write(conn)) + (if owns then [Commit(conn)] else [])
  }

  /** `save_track`'s loop: save each artist, then write its link on the track's connection. */
  function LinkWrites(arts: seq<Artist>, conn: nat, shared: bool): seq<Stmt>
  {
    if arts == [] then []
    else ArtistWrites(arts[0], Child(conn, shared), !shared) + [Write(conn)] + LinkWrites(arts[1..], conn, shared)
  }

  /** `save_track` on connection `conn`: the track row, its artists and links, then commit if it owns `conn`. */
  function TrackWrites(t: Track, conn: nat, shared: bool, owns: bool): seq<Stmt>
  {
    [Write(conn)] + LinkWrites(t.artists, conn, shared) + (if owns then [Commit(conn)] else [])
  }

  function TrackItemWrites(ts: seq<Track>, conn: nat, shared: bool): seq<Stmt>
  {
    if ts == [] then []
    else TrackWrites(ts[0], Child(conn, shared), shared, !shared) + [Write(conn)] + TrackItemWrites(ts[1..], conn, shared)
  }

  function ArtistItemWrites(arts: seq<Artist>, conn: nat, shared: bool): seq<Stmt>
  {
    if arts == [] then []
    else ArtistWrites(arts[0], Child(conn, shared), !shared) + [Write(conn)] + ArtistItemWrites(arts[1..], conn, shared)
  }

  /** `save_user_top_tracks`: the DELETE, each track and its ranking row, the sync row, commit. */
  function TopTracksWrites(ts: seq<Track>, shared: bool): seq<Stmt>
  {
    [Write(0)] + TrackItemWrites(ts, 0, shared) + [Write(0), Commit(0)]
  }

  function TopArtistsWrites(arts: seq<Artist>, shared: bool): seq<Stmt>
  {
    [Write(0)] + ArtistItemWrites(arts, 0, shared) + [Write(0), Commit(0)]
  }

  /** A sequence that starts with another connection's write while the lock is held stops there. */
  lemma BlockedWrite(trace: seq<Stmt>, rest: seq<Stmt>, holder: nat, c: nat)
    requires c != holder && |trace| > 0 && trace[0] == Write(c)
    ensures !Runs(trace + rest, Some(holder))
  {
    assert (trace + rest)[0] == Write(c);
  }

  /**
   * As written, a top-tracks or top-artists save runs to its commit only for an empty list:
   * the first nested save blocks on the lock its caller's DELETE took. `save_track` alone
   * fails for any track with an artist, its own INSERT blocking its `save_artist`.
   */
  lemma NestedSavesLock(ts: seq<Track>, arts: seq<Artist>, t: Track, a: Artist)
    ensures Runs(TopTracksWrites(ts, false), None) <==> ts == []
    ensures Runs(TopArtistsWrites(arts, false), None) <==> arts == []
    ensures Runs(TrackWrites(t, 0, false, true), None) <==> t.artists == []
    ensures Runs(ArtistWrites(a, 0, true), None)
  {
    TopTracksLock(ts);
    TopArtistsLock(arts);
    SaveTrackLock(t);
    OnOneConnection(ArtistWrites(a, 0, true), 0, None);
  }

  lemma TopTracksLock(ts: seq<Track>)
    ensures Runs(TopTracksWrites(ts, false), None) <==> ts == []
  {
    var tt := TopTracksWrites(ts, false);
    if ts != [] {
      var first := TrackWrites(ts[0], 1, false, true);
      var rest := [Write(0)] + TrackItemWrites(ts[1..], 0, false) + [Write(0), Commit(0)];
      assert first[0] == Write(1);
      assert TrackItemWrites(ts, 0, false) == first + [Write(0)] + TrackItemWrites(ts[1..], 0, false);
      assert tt[1..] == first + rest;
      BlockedWrite(first, rest, 0, 1);
    } else {
      assert tt == [Write(0), Write(0), Commit(0)];
      OnOneConnection(tt, 0, None);
    }
  }

  lemma TopArtistsLock(arts: seq<Artist>)
    ensures Runs(TopArtistsWrites(arts, false), None) <==> arts == []
  {
    var ta := TopArtistsWrites(arts, false);
    if arts != [] {
      var first := ArtistWrites(arts[0], 1, true);
      var rest := [Write(0)] + ArtistItemWrites(arts[1..], 0, false) + [Write(0), Commit(0)];
      assert first[0] == Write(1);
      assert ArtistItemWrites(arts, 0, false) == first + [Write(0)] + ArtistItemWrites(arts[1..], 0, false);
      assert ta[1..] == first + rest;
      BlockedWrite(first, rest, 0, 1);
    } else {
      assert ta == [Write(0), Write(0), Commit(0)];
      OnOneConnection(ta, 0, None);
    }
  }

  lemma SaveTrackLock(t: Track)
    ensures Runs(TrackWrites(t, 0, false, true), None) <==> t.artists == []
  {
    var tw := TrackWrites(t, 0, false, true);
    if t.artists != [] {
      var first := ArtistWrites(t.artists[0], 1, true);
      var rest := [Write(0)] + LinkWrites(t.artists[1..], 0, false) + [Commit(0)];
      assert first[0] == Write(1);
      assert LinkWrites(t.artists, 0, false) == first + [Write(0)] + LinkWrites(t.artists[1..], 0, false);
      assert tw[1..] == first + rest;
      BlockedWrite(first, rest, 0, 1);
    } else {
      assert tw == [Write(0), Commit(0)];
      OnOneConnection(tw, 0, None);
    }
  }

  predicate AllOn(trace: seq<Stmt>, conn: nat)
  {
    forall i :: 0 <= i < |trace| ==> trace[i].conn == conn
  }

  /** Statements of a single connection never wait for the lock. */
  lemma {:induction false} OnOneConnection(trace: seq<Stmt>, conn: nat, holder: Option<nat>)
    requires AllOn(trace, conn) && (holder.None? || holder == Some(conn))
    ensures Runs(trace, holder)
  {
    if trace != [] {
      var next := if trace[0].Write? then Some(conn) else None;
      OnOneConnection(trace[1..], conn, next);
    }
  }

  /** Only writes, all on connection `conn`: no commit in between. */
  predicate WritesOn(trace: seq<Stmt>, conn: nat)
  {
    forall i :: 0 <= i < |trace| ==> trace[i] == Write(conn)
  }

  /** One transaction on `conn`: writes on it only, and a single commit as the last statement. */
  predicate OneTransaction(trace: seq<Stmt>, conn: nat)
  {
    |trace| > 0 && trace[|trace| - 1] == Commit(conn) && WritesOn(trace[..|trace| - 1], conn)
  }

  lemma WritesOnAppend(a: seq<Stmt>, b: seq<Stmt>, conn: nat)
    requires WritesOn(a, conn) && WritesOn(b, conn)
    ensures WritesOn(a + b, conn)
  {
    forall i | 0 <= i < |a + b| ensures (a + b)[i] == Write(conn) {
      if i >= |a| { assert (a + b)[i] == b[i - |a|]; }
    }
  }

  /** A nested `save_artist` on its caller's connection only writes. */
  lemma SharedArtistWrites(a: Artist, conn: nat)
    ensures WritesOn(ArtistWrites(a, conn, false), conn)
  {
    WritesOnAppend([Write(conn)], seq(|a.genres|, _ => Write(conn)), conn);
    assert ArtistWrites(a, conn, false) == [Write(conn)] + seq(|a.genres|, _ => Write(conn));
  }

  lemma {:induction false} LinkWritesShared(arts: seq<Artist>, conn: nat)
    ensures WritesOn(LinkWrites(arts, conn, true), conn)
  {
    if arts != [] {
      LinkWritesShared(arts[1..], conn);
      SharedArtistWrites(arts[0], conn);
      WritesOnAppend(ArtistWrites(arts[0], conn, false), [Write(conn)], conn);
      WritesOnAppend(ArtistWrites(arts[0], conn, false) + [Write(conn)], LinkWrites(arts[1..], conn, true), conn);
    }
  }

  /** A nested `save_track` on its caller's connection only writes. */
  lemma SharedTrackWrites(t: Track, conn: nat)
    ensures WritesOn(TrackWrites(t, conn, true, false), conn)
  {
    LinkWritesShared(t.artists, conn);
    WritesOnAppend([Write(conn)], LinkWrites(t.artists, conn, true), conn);
    assert TrackWrites(t, conn, true, false) == [Write(conn)] + LinkWrites(t.artists, conn, true);
  }

  lemma {:induction false} TrackItemWritesShared(ts: seq<Track>, conn: nat)
    ensures WritesOn(TrackItemWrites(ts, conn, true), conn)
  {
    if ts != [] {
      SharedTrackWrites(ts[0], conn);
      TrackItemWritesShared(ts[1..], conn);
      WritesOnAppend(TrackWrites(ts[0], conn, true, false), [Write(conn)], conn);
      WritesOnAppend(TrackWrites(ts[0], conn, true, false) + [Write(conn)], TrackItemWrites(ts[1..], conn, true), conn);
    }
  }

  lemma {:induction false} ArtistItemWritesShared(arts: seq<Artist>, conn: nat)
    ensures WritesOn(ArtistItemWrites(arts, conn, true), conn)
  {
    if arts != [] {
      SharedArtistWrites(arts[0], conn);
      ArtistItemWritesShared(arts[1..], conn);
      WritesOnAppend(ArtistWrites(arts[0], conn, false), [Write(conn)], conn);
      WritesOnAppend(ArtistWrites(arts[0], conn, false) + [Write(conn)], ArtistItemWrites(arts[1..], conn, true), conn);
    }
  }

  /** Writes on `conn` closed by one commit form one transaction, and run to the end. */
  lemma ClosedTransaction(body: seq<Stmt>, conn: nat)
    requires WritesOn(body, conn)
    ensures OneTransaction(body + [Commit(conn)], conn) && Runs(body + [Commit(conn)], None)
  {
    var trace := body + [Commit(conn)];
    assert trace[..|trace| - 1] == body;
    OnOneConnection(trace, conn, None);
  }

  /**
   * With the caller's connection passed down to the nested saves, and the commit left to the
   * save that opened the connection, every save is one transaction: all its writes on one
   * connection, a single commit as its last statement, and it runs to that commit.
   */
  lemma SharedConnectionCompletes(ts: seq<Track>, arts: seq<Artist>, t: Track)
    ensures OneTransaction(TopTracksWrites(ts, true), 0) && Runs(TopTracksWrites(ts, true), None)
    ensures OneTransaction(TopArtistsWrites(arts, true), 0) && Runs(TopArtistsWrites(arts, true), None)
    ensures OneTransaction(TrackWrites(t, 0, true, true), 0) && Runs(TrackWrites(t, 0, true, true), None)
  {
    TrackItemWritesShared(ts, 0);
    WritesOnAppend([Write(0)], TrackItemWrites(ts, 0, true), 0);
    WritesOnAppend([Write(0)] + TrackItemWrites(ts, 0, true), [Write(0)], 0);
    assert TopTracksWrites(ts, true) == [Write(0)] + TrackItemWrites(ts, 0, true) + [Write(0)] + [Commit(0)];
    ClosedTransaction([Write(0)] + TrackItemWrites(ts, 0, true) + [Write(0)], 0);

    ArtistItemWritesShared(arts, 0);
    WritesOnAppend([Write(0)], ArtistItemWrites(arts, 0, true), 0);
    WritesOnAppend([Write(0)] + ArtistItemWrites(arts, 0, true), [Write(0)], 0);
    assert TopArtistsWrites(arts, true) == [Write(0)] + ArtistItemWrites(arts, 0, true) + [Write(0)] + [Commit(0)];
    ClosedTransaction([Write(0)] + ArtistItemWrites(arts, 0, true) + [Write(0)], 0);

    LinkWritesShared(t.artists, 0);
    WritesOnAppend([Write(0)], LinkWrites(t.artists, 0, true), 0);
    ClosedTransaction([Write(0)] + LinkWrites(t.artists, 0, true), 0);
  }

  // ---- Properties across saves and reads ----

  /**
   * Reading back after a successful save: the group is the saved ids in order at positions
   * 1, 2, ...; every other (user, time range) reads as before.
   */
  lemma SavedRankingReadsBack(c: Catalog, rows: seq<RankRow>, userId: string, timeRange: string, ids: seq<string>,
                              now: Instant, u: string, r: string, limit: Option<int>)
    requires RefersTo(rows, c.tracks.Keys) && Ranked(rows)
    requires forall k :: 0 <= k < |ids| ==> ids[k] in c.tracks
    ensures var after := DeleteGroup(rows, userId, timeRange) + RankRows(userId, ids, timeRange, now);
      RefersTo(after, c.tracks.Keys) && Ranked(after) &&
      (u == userId && r == timeRange ==>
        var res := TopTracksOf(c, after, u, r, None);
        |res| == |ids| && forall k :: 0 <= k < |ids| ==> res[k].trackId == ids[k] && res[k].position == k + 1) &&
      (!(u == userId && r == timeRange) ==> TopTracksOf(c, after, u, r, limit) == TopTracksOf(c, rows, u, r, limit))
  {
    var after := DeleteGroup(rows, userId, timeRange) + RankRows(userId, ids, timeRange, now);
    ReplaceKeepsRanked(rows, userId, timeRange, ids, now);
    ReplaceGroup(rows, userId, timeRange, ids, now, u, r);
  }

  /** Data the database just recorded is fresh for any non-negative threshold. */
  lemma SyncFreshAfterSave(meta: map<SyncKey, SyncRow>, key: SyncKey, now: Instant, n: nat, days: int)
    ensures var m := meta[key := SyncRow(now, n)];
            !SyncStale(Some(m[key]), now, days) <==> days >= 0
  {
  }

  /**
   * The JSON store calls data stale once its age reaches `days` whole days; the database only
   * once the age exceeds `days` days. The two answers differ exactly at an age of `days` days.
   */
  lemma StalenessBoundary<D>(e: JsonStorage.Envelope<D>, row: SyncRow, now: Instant, days: int)
    requires e.timestamp == Some(row.lastSynced)
    ensures JsonStorage.StaleAt(Some(e), now, days) != SyncStale(Some(row), now, days) <==> now - row.lastSynced == days * DAY
  {
  }
}
