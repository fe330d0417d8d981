# Spotify Wrapped dashboard — a verified model of its core

This project models the data-handling core of a Spotify "Wrapped" dashboard: a Flask backend
that fetches a user's top tracks and artists, stores them as JSON files and in an SQLite
database, derives yearly statistics (genre counts, listening minutes, an "audio aura" and a
listening personality), classifies audio features, and lays out shareable image cards, plus the
paging and number formatting of the two React track lists.

The Dafny modules follow the program's files:

- `Prelude`, `Text`, `Tally` and `Layout` hold shared pieces. `Prelude` has `Option`, prefixes, sums and the first arg-max. `Text` has whitespace splitting, joining, case mapping and decimal formatting. `Tally` models Python's `Counter` and `most_common`. `Layout` has the greedy word wrap that both card generators use.
- `JsonStorage` models `json_storage.py`. The store is a class holding a map from file paths to stored files. Saving, loading, staleness, clearing and the listing of a user's files are methods and functions over that map.
- `SpotifyDb` models `backend/spotify_db.py`. The database is a class whose fields are the tables. The model covers the upserts of artists, tracks, genres and track–artist links, the replacement of a user's ranking, the sync metadata, and the queries that read rankings and listening statistics back.
- `App` models the routes and helpers of `app.py` once the upstream has answered.
- `AudioFeatures` models `backend/enhancements/audio_features.py`.
- `Pager` models the paging state of `frontend/src/components/TopTracks.js`.
- `TrackList` models the duration formatting and totals of `src/components/TopTracks.js`. Its `FormatDuration` also models the identical `formatDuration` of `frontend/src/components/TopTracks.js` (lines 58-62), which has the same ":60" defect.
- `InstagramCards` and `OfficialCards` model the layout decisions of `instagram_generator.py` and `backend/official_instagram_generator.py`.
- `VisualCards` models `backend/enhancements/visual_cards.py`.

Time is an integer number of microseconds passed in as `now`. Upstream calls (Spotify, the
audio-features endpoint) are parameters: a flag for an authenticated client, the lists the API
returned, or an oracle function from ids to answers. File writes take their outcome as a
parameter (written, failed to open, failed midway), because `json.dump` can leave a truncated file.

## Model

| member | source | states |
|---|---|---|
| Tally.Tally | app.py:166-170 | `Counter(all_genres)`: keys are distinct, counts are positive, each key's count is its number of occurrences, and a key is present exactly when it occurs |
| Tally.MostCommon | app.py:171 | `most_common(n)`: min(n, #keys) entries sorted by count, a sub-multiset of the counter, and every entry left out counts no more than every entry kept |
| Tally.MostCommonHeadIsMaxKey | app.py:191 | the head of `most_common` is the first key of maximal count, the one `max(.., key=counts.get)` picks |
| Tally.TallySize | app.py:288 | the counter has one entry per distinct element |
| Tally.TallyTotal | app.py:288 | `sum(genre_counts.values())` equals the number of genre entries |
| Tally.MostCommonCounts | app.py:171 | every count `most_common` reports is the true occurrence count of its genre |
| Text.SplitJoinWords | instagram_generator.py:292 | `str.split()` of words joined by single spaces gives the words back |
| Text.SplitJoinComma | backend/spotify_db.py:342-347 | splitting a `", "`-joined list of names that contain no `", "` gives the names back |
| Text.WithThousandsDigits | backend/official_instagram_generator.py:184 | the `{:,}` text of an integer, with its commas removed, is its plain decimal text |
| Text.NatToString | backend/official_instagram_generator.py:185 | `str(n)`: a non-empty digit string without leading zeros whose value is n |
| Layout.WrapText | instagram_generator.py:291-301 | the wrap loop yields the lines of the greedy groups of the description's words, each joined by single spaces |
| Layout.WrapGroupsProperties | instagram_generator.py:295-301 | the groups hold all the words in order; each fits the width unless it is one long word; only the first can be empty (a first word wider than the width); each group starting after another would overflow it |
| Layout.WrappedLinesKeepWords | backend/official_instagram_generator.py:399-405 | re-splitting the wrapped lines gives back exactly the words of the groups |
| Layout.PlaceLines | instagram_generator.py:303-306 | `lines[:k]` drawn `step` px apart: min(k, #lines) placed lines at `y0 + step*i`; the cursor ends below the last one |
| JsonStorage.GetFilePath | json_storage.py:29-36 | the file name is `<type>_<range>.json` for a truthy range and `<type>.json` otherwise, in the user's directory |
| JsonStorage.JsonStore.SaveData | json_storage.py:38-61 | the save reports success exactly when the write completes; the new map writes the envelope (user, type, range, timestamp, data) at that path, keeps the old file when the open fails and leaves an unreadable file after a failure midway |
| JsonStorage.SaveThenLoad | json_storage.py:38-77 | after a completed save the next load returns the envelope just written; after a failed open it returns what it returned before; after a failure midway it returns nothing |
| JsonStorage.SaveLeavesOtherFiles | json_storage.py:38-61 | a save changes no other path's load |
| JsonStorage.LoadAt | json_storage.py:63-77 | `load_data` answers exactly when the file exists and parses, and then answers its envelope |
| JsonStorage.JsonStore.LoadData | json_storage.py:63-77 | the store answers a key exactly when its file exists and parses, and then with that file's envelope |
| JsonStorage.JsonStore.IsDataStale | json_storage.py:79-91 | a key is stale when it does not load, has no readable timestamp, or is at least `days` days old |
| JsonStorage.StaleAt | json_storage.py:79-91 | data is stale when missing, without a timestamp, or when its age in whole days (`.days`) reaches the threshold |
| JsonStorage.FloorDaysReach | json_storage.py:88-89 | counting whole days of the age with floor division reaches `days` exactly when the age reaches `days` days |
| JsonStorage.FreshAfterSave | json_storage.py:79-91 | data just saved is stale only for a threshold of zero days or less |
| JsonStorage.JsonStore.SaveUserProfile | json_storage.py:93-95 | the profile is saved under type `profile` with no range, and after a completed write `load_user_profile` returns it |
| JsonStorage.JsonStore.LoadUserProfile | json_storage.py:97-100 | the profile is the data of the loaded envelope, and there is none exactly when the envelope does not load |
| JsonStorage.JsonStore.SaveTopTracks | json_storage.py:102-104 | tracks are saved under type `top_tracks` with the given range, and after a completed write `load_top_tracks` of that range returns them |
| JsonStorage.JsonStore.LoadTopTracks | json_storage.py:106-109 | the tracks are the data of the range's loaded envelope, and there are none exactly when it does not load |
| JsonStorage.JsonStore.SaveTopArtists | json_storage.py:111-113 | artists are saved under type `top_artists` with the given range, and after a completed write `load_top_artists` of that range returns them |
| JsonStorage.JsonStore.LoadTopArtists | json_storage.py:115-118 | the artists are the data of the range's loaded envelope, and there are none exactly when it does not load |
| JsonStorage.WrapperSaveThenLoad | json_storage.py:93-118 | saving one range's top tracks is read back for that range and changes neither the profile, nor any range's top artists, nor another range's top tracks |
| JsonStorage.WithoutUser | json_storage.py:148-158 | clearing a user keeps exactly the files of other users, unchanged |
| JsonStorage.JsonStore.ClearUserData | json_storage.py:148-158 | true exactly when `rmtree` completes; the store becomes `AfterClear` of the old one: nothing added or changed, other users' files kept, and the user's files all gone on success or, on a failure partway, exactly those deleted before the error |
| JsonStorage.AfterClear | json_storage.py:148-158 | `rmtree` adds and changes nothing and keeps other users' files; a completed removal leaves none of the user's files, a failed one exactly those it had not yet deleted |
| JsonStorage.ClearRemovesOnlyUser | json_storage.py:148-158 | after any clear, other users' paths load as before; after a completed clear none of the user's paths loads; after a failed one a user's path loads as before unless it was among the deleted files |
| JsonStorage.JsonStore.GetAllUserFiles | json_storage.py:160-194 | one entry per `.json` file of the user, each described from its name, size, time and staleness, newest first |
| JsonStorage.SortNewestFirst | json_storage.py:194 | `sort(key=modified, reverse=True)` is a permutation ordered newest first |
| JsonStorage.ParseFileNameInverts | json_storage.py:29-36 | for a type and range without underscores, parsing a file name gives back the type and range that made it |
| JsonStorage.FileNameInjective | json_storage.py:29-36 | underscore-free types and truthy ranges never share a file name |
| JsonStorage.WrapperFilesDistinct | json_storage.py:93-113 | profile, top tracks and top artists of any non-empty ranges use different files, and one file per range |
| JsonStorage.KeysThatShareAFile | json_storage.py:29-36 | ("top", "tracks_medium_term") and ("top_tracks", "medium_term") share a file, and so do no range and the empty range |
| JsonStorage.ParseFileNameMisreadsTopTracks | json_storage.py:177-179 | the listing parses `top_tracks_medium_term.json` as type `top`, range `tracks` |
| JsonStorage.ListingStalenessOfTopTracks | json_storage.py:177-182 | so, while the user has no range-less `top_tracks.json`, the listing reports a saved `top_tracks_medium_term.json` as stale however fresh it is |
| SpotifyDb.WithArtistSpec | backend/spotify_db.py:211-237 | `save_artist` upserts the artist's row, adds every one of its genres, keeps the others, leaves tracks and links alone and keeps references valid |
| SpotifyDb.GenresAfterSpec | backend/spotify_db.py:230-235 | the genre rows after the loop are the old ones plus one row per genre of the artist |
| SpotifyDb.WithTrackSpec | backend/spotify_db.py:172-209 | `save_track` upserts the track's row, stores every one of its artists, keeps references valid and removes nothing |
| SpotifyDb.LinkArtistsValid | backend/spotify_db.py:201-207 | the artist loop keeps every link pointing at a stored track and artist |
| SpotifyDb.UpsertLink | backend/spotify_db.py:204-206 | `INSERT OR REPLACE` of a link: the old links minus the one for the same pair, plus the new one |
| SpotifyDb.Database.SaveArtist | backend/spotify_db.py:211-237 | the database stays valid; the catalogue becomes `WithArtist` of the old one; rankings and sync metadata are unchanged |
| SpotifyDb.Database.SaveTrack | backend/spotify_db.py:172-209 | the database stays valid; the catalogue becomes `WithTrack` of the old one; rankings and sync metadata are unchanged |
| SpotifyDb.Database.InsertTracks | backend/spotify_db.py:250-257 | the insert loop stops at the first repeated id; the catalogue holds the tracks saved up to it; without a repeat the rows are the old ones of other groups plus positions 1..n |
| SpotifyDb.Database.InsertArtists | backend/spotify_db.py:279-286 | the same for artists |
| SpotifyDb.Database.SaveUserTopTracks | backend/spotify_db.py:239-266 | success exactly when the ids are distinct; on success every track is in the catalogue, the user's ranking for the range is replaced by positions 1..n and the sync row records now and n; on failure the whole save is rolled back |
| SpotifyDb.Database.SaveUserTopArtists | backend/spotify_db.py:268-295 | the same for artists |
| SpotifyDb.DeleteGroup | backend/spotify_db.py:245-248 | the delete keeps exactly the rows of other users or ranges |
| SpotifyDb.RankRows | backend/spotify_db.py:251-257 | the inserted rows carry the ids in order at positions 1..n |
| SpotifyDb.ReplaceGroup | backend/spotify_db.py:245-257 | after the replacement the group is exactly the new rows and every other group is as before |
| SpotifyDb.ReplaceKeepsRanked | backend/spotify_db.py:245-257 | every group stays numbered 1..k after a replacement |
| SpotifyDb.HasRowIsRepeat | backend/spotify_db.py:251-257 | after a replacement the group has a row for an id exactly when the id was saved |
| SpotifyDb.DistinctIffNoRepeat | backend/spotify_db.py:251-257 | the ids are distinct exactly when no id repeats, so the primary key is violated exactly on a repeat |
| SpotifyDb.SavedRankingReadsBack | backend/spotify_db.py:239-350 | after saving a ranking, reading it back gives the saved ids at positions 1..n, and every other group reads as before |
| SpotifyDb.SyncFreshAfterSave | backend/spotify_db.py:260-264 | data just recorded is fresh for any non-negative threshold |
| SpotifyDb.StalenessBoundary | backend/spotify_db.py:297-311 | the database's `>` and the JSON store's `>=` disagree exactly when the age equals the threshold |
| SpotifyDb.SyncStale | backend/spotify_db.py:297-311 | stale without a sync row, otherwise exactly when the threshold has passed since the last sync |
| SpotifyDb.SyncStaleMonotone | backend/spotify_db.py:297-311 | stale data stays stale as time passes and under a smaller threshold |
| SpotifyDb.Database.IsDataStale | backend/spotify_db.py:297-311 | the database's answer for a key: stale without its sync row, otherwise exactly when the threshold has passed |
| SpotifyDb.ApplyLimit | backend/spotify_db.py:333-334 | a positive limit cuts to that many rows; no limit or a non-positive one keeps all |
| SpotifyDb.TopTrackOf | backend/spotify_db.py:339-347 | a row carries its track and position; its artist names and ids are both empty or both not, and empty exactly when the linked names concatenate to nothing (no link, or one artist with an empty name) |
| SpotifyDb.TopTrackArtistsReadBack | backend/spotify_db.py:318-347 | without ", " in a name or id, a row lists its artists' names and ids exactly, pairwise and in link order, unless its only artist has an empty name |
| SpotifyDb.TopTrackSplitEdges | backend/spotify_db.py:342-347 | an only artist with an empty name drops its id too; an empty artist id reads as the id "" |
| SpotifyDb.TopArtistOf | backend/spotify_db.py:376-383 | a row carries its artist and position; without ", " in a genre, its genres are the artist's genre rows in order (none for a single empty genre) |
| SpotifyDb.TopTracksOf | backend/spotify_db.py:313-350 | the user's rows for the range in position order, cut by the limit, each joined with its track; the i-th is at position i + 1 |
| SpotifyDb.TopArtistsOf | backend/spotify_db.py:352-385 | the same for artists |
| SpotifyDb.Database.GetUserTopTracks | backend/spotify_db.py:313-350 | the stored ranking for the user and range, cut by the limit: the i-th result is the i-th ranked track, at position i + 1 |
| SpotifyDb.Database.GetUserTopArtists | backend/spotify_db.py:352-385 | the same for artists |
| SpotifyDb.ConcatSplitRoundTrip | backend/spotify_db.py:342-347 | splitting `GROUP_CONCAT` output gives back names that contain no `", "`, except that one empty name reads as no artists |
| SpotifyDb.ConcatSplitsCommaName | backend/spotify_db.py:342-347 | one artist named "A, B" reads back as two artists |
| SpotifyDb.HoursAreWholeHours | backend/spotify_db.py:439-440 | hours are the whole hours and minutes the whole minutes of the total |
| SpotifyDb.JoinedTotalAgrees | backend/spotify_db.py:409-419 | the SUM over the artist join agrees with the true total when no ranked track has two artist links |
| SpotifyDb.JoinedTotalDoubleCounts | backend/spotify_db.py:409-419 | one ranked one-minute track with two artists is reported as two minutes, not one |
| SpotifyDb.ListeningStatsOf | backend/spotify_db.py:403-447 | the corrected statistics: with each track counted once, minutes and hours are the total cut to whole minutes and hours, equal to the joined SUM's minutes whenever no ranked track with a duration has two artist links; the track and artist counts never exceed the ranked rows |
| SpotifyDb.KnownIdsBound | backend/spotify_db.py:413 | the distinct stored ids of a ranking are no more than its rows |
| SpotifyDb.Database.GetListeningStats | backend/spotify_db.py:403-447 | the corrected statistics of the stored rankings: minutes are their single-counted total cut to whole minutes, equal to the joined SUM's when no ranked track with a duration has two artist links; the counts never exceed the ranked rows |
| SpotifyDb.NestedSavesLock | backend/spotify_db.py:17-28 | as written, a top-tracks or top-artists save reaches its commit only for an empty list, and `save_track` only for a track without artists; `save_artist` alone always does |
| SpotifyDb.SharedConnectionCompletes | backend/spotify_db.py:172-295 | with the caller's connection passed to the nested saves and the commit left to the save that opened it, each top-tracks, top-artists and track save is one transaction: only writes on one connection, a single commit as its last statement, and it runs to that commit |
| App.TopItemsRoute | app.py:103-148 | 401 exactly without a client; 400 exactly for an unknown type or range, naming which; otherwise a fetch of 50 items of that type and range |
| App.WrappedStatsRoute | app.py:150-158 | 401 exactly without a client; 400 exactly for an unknown range; otherwise both lists of 50 |
| App.TrackItemOf | app.py:125-131 | a listed track names its first artist, or "Unknown" when it has none |
| App.FirstImage | app.py:131 | the first image, or none when the list is empty |
| App.TimePeriodLabel | app.py:238-245 | a label differs from its range exactly for the three known ranges; any other range passes unchanged |
| App.TimePeriodLabelsDistinct | app.py:238-245 | the three ranges get three different labels, none of which is a range name |
| App.FirstMatching | app.py:205-236 | the first keyword group with a member in the genre, and no earlier one matches |
| App.AnalyzeMusicTasteShape | app.py:205-236 | at most three tags, at most one per group so the cut drops none; the family tag of the top genre comes first; "Genre Adventurer" iff more than 15 genres; "Loyal Listener" iff fewer than 5; no tracks reads as "Underground Explorer" |
| App.FirstKeyIn | app.py:397-407 | the colour table scan with `break` stops at the first key contained in the genre |
| App.Aura | app.py:373-413 | exactly three colours: one per top genre, then the default |
| App.GenerateAudioAura | app.py:373-413 | the loop with `break` and the padding produce `Aura` |
| App.IndiePopDisagrees | app.py:376-392 | "indie pop" gets the pop colour but the indie taste tag: the two tables are read in different orders |
| App.PersonalityShape | app.py:415-515 | at most three traits; with genres the first is the genre personality of the top genre; the cut drops something only when all four groups yield a trait, and then it drops the duration trait |
| App.Minutes | app.py:193 | whole minutes of a total in milliseconds, rounded down |
| App.AvgOrZero | app.py:175 | 0 for no tracks, otherwise the mean: times the count it gives the sum |
| App.TopArtistSummaryOf | app.py:181-185 | the first artist with at most its first three genres, or "Unknown" with none |
| App.TopTrackSummaryOf | app.py:186-190 | the first track under its first artist (or "Unknown"), or "Unknown" without tracks |
| App.WrappedStatsOf | app.py:174-198 | the statistics carry the top artist and track, the whole minutes, the mean popularity, the list sizes and the range's label |
| App.WrappedStatsGenres | app.py:166-192 | the top genre is the most frequent genre (first met on a tie) or "Unknown"; at most ten top genres in descending order with their true counts |
| App.WrappedTimeRange | app.py:260 | `medium_term` exactly for the current year, and a valid range either way |
| App.FormatTopTracks | app.py:316-326 | the first five tracks, numbered from 1 |
| App.FormatTopArtists | app.py:329-337 | the first five artists, numbered from 1 |
| App.WrappedOf | app.py:247-371 | the route fails exactly when there are no tracks or a top-five track has no artist; otherwise its lists are the formatted top fives |
| App.WrappedRanks | app.py:316-337 | the summary lists the top fives in upstream order, numbered from 1, each track under its first artist; top song is the first track, top artist the first artist when there is one |
| App.WrappedPeriodLabel | app.py:350 | the period starts "January - ", names October exactly for the current year, and ends with the year's digits |
| App.WrappedPeriodLabelsDistinct | app.py:350 | two years' period labels are equal exactly when the years are |
| App.WrappedPeriod | app.py:248-371 | the summaries of two years differ in their period exactly when the years do; a summary's period ends with its year and names October exactly for the current year |
| App.CollectGenres | app.py:276-283 | the nested loop collects every genre of every artist in order |
| App.SpotifyWrapped | app.py:247-371 | the route with the genre loop computes `WrappedOf` over all genres |
| App.WrappedTotals | app.py:271-313 | hours are whole hours of the total duration and agree with the database's listening statistics; the percentage base is the number of genre entries; the genre count is the number of distinct genres; three aura colours and at most three traits |
| AudioFeatures.Batches | backend/enhancements/audio_features.py:11-21 | `range(0, n, 100)`: ceil(n/100) slices of 100 ids |
| AudioFeatures.BatchesSpec | backend/enhancements/audio_features.py:11-21 | every batch is a non-empty run of at most 100 ids, and the batches concatenated give back the ids in order |
| AudioFeatures.GetAudioFeatures | backend/enhancements/audio_features.py:11-21 | one upstream call per batch, and the features kept are the present answers in order |
| AudioFeatures.SomesMembers | backend/enhancements/audio_features.py:18-19 | the answers kept are exactly the present ones, never more than the ids |
| AudioFeatures.PresentIds | backend/enhancements/audio_features.py:27 | the ids sent are the non-empty ones, each as often as in the input, never more than the input |
| AudioFeatures.PresentIdsAppend | backend/enhancements/audio_features.py:27 | the filter keeps order: filtering a concatenation is concatenating the filtered parts |
| AudioFeatures.PresentIdsKeepsFullIds | backend/enhancements/audio_features.py:27 | a list without empty ids is sent unchanged |
| AudioFeatures.AnalysisOf | backend/enhancements/audio_features.py:70-74 | each extreme is one of the features and maximal, or minimal for the saddest; on a tie it is the first such feature, as `max` and `min` return |
| AudioFeatures.AnalyzeMusicCharacteristics | backend/enhancements/audio_features.py:23-76 | no analysis exactly when no id is sent or no feature comes back; otherwise the analysis of the returned features |
| AudioFeatures.Bucket | backend/enhancements/audio_features.py:78-152 | an `if x < cut` chain selects the first cut above the value |
| AudioFeatures.BucketMonotone | backend/enhancements/audio_features.py:78-152 | with increasing cuts a larger value never lands in a lower bucket |
| AudioFeatures.EnergyBuckets | backend/enhancements/audio_features.py:78-89 | the energy cuts increase and the description is the label of the value's bucket |
| AudioFeatures.DanceabilityBuckets | backend/enhancements/audio_features.py:91-102 | the same for danceability |
| AudioFeatures.MoodBuckets | backend/enhancements/audio_features.py:104-115 | the same for mood |
| AudioFeatures.AcousticnessBuckets | backend/enhancements/audio_features.py:117-126 | the same for acousticness |
| AudioFeatures.TempoBuckets | backend/enhancements/audio_features.py:128-139 | the same for tempo |
| AudioFeatures.InstrumentalnessBuckets | backend/enhancements/audio_features.py:141-152 | the same for instrumentalness |
| AudioFeatures.MusicalProfileShape | backend/enhancements/audio_features.py:154-185 | at most one tag from each of mood, dance and acoustic, in that order; a mood tag needs extreme energy and valence; the fallback exactly when no tag; a single tag is shown alone |
| AudioFeatures.ListeningPersonalityPriority | backend/enhancements/audio_features.py:187-226 | the personality is that of the first rule that holds; "The Life of the Party" exactly when the party rule holds; "The Explorer" exactly when no earlier rule holds |
| Pager.TotalPagesSpec | frontend/src/components/TopTracks.js:65 | `ceil(n/10)` is the fewest pages of ten that hold every track, and zero only for an empty list |
| Pager.SliceBound | frontend/src/components/TopTracks.js:68 | a `slice` bound is clamped to the list and kept as is when inside it |
| Pager.PageSliceSpec | frontend/src/components/TopTracks.js:65-68 | a page in 1..totalPages shows the non-empty run of at most ten tracks from `(page-1)*10`, so the rank `startIndex + i + 1` is the track's position in the whole list |
| Pager.BlankShowsNothing | frontend/src/components/TopTracks.js:66-68 | while the input is blank the list shows nothing |
| Pager.PagesPartition | frontend/src/components/TopTracks.js:65-68 | the pages read in order list every track exactly once and in order |
| Pager.Previous | frontend/src/components/TopTracks.js:70-72 | one page back, never below 1 |
| Pager.Next | frontend/src/components/TopTracks.js:74-76 | one page on, never beyond the last page |
| Pager.ParseIntReadsIntegers | frontend/src/components/TopTracks.js:87 | `parseInt` reads back a printed integer, with or without a minus, before any non-digit tail |
| Pager.InputChange | frontend/src/components/TopTracks.js:78-99 | an empty input blanks the page; a non-number changes nothing; a number is clamped to 1..totalPages |
| Pager.Blur | frontend/src/components/TopTracks.js:101-106 | a blank or non-positive page becomes 1; any other stays |
| Pager.HandlersKeepPageInRange | frontend/src/components/TopTracks.js:70-106 | from a page in range (or blank) every handler leaves the page in range, or blank after clearing the input; the only keys handled are Enter and the two arrows |
| Pager.ShowsControls | frontend/src/components/TopTracks.js:189 | the controls show exactly when there are more than ten tracks |
| Pager.TrackPager.ChangeTimeRange | frontend/src/components/TopTracks.js:14-16 | a new time range resets the page to 1 |
| Pager.TrackPager.PreviousPage | frontend/src/components/TopTracks.js:70-72 | the page becomes `Previous` of the old one; the list is unchanged |
| Pager.TrackPager.NextPage | frontend/src/components/TopTracks.js:74-76 | the page becomes `Next` of the old one within the list's page count |
| Pager.TrackPager.PageInputChange | frontend/src/components/TopTracks.js:78-99 | the page becomes `InputChange` of the old one |
| Pager.TrackPager.PageInputBlur | frontend/src/components/TopTracks.js:101-106 | the page becomes `Blur` of the old one |
| Pager.TrackPager.PageInputKeyDown | frontend/src/components/TopTracks.js:212-222 | the page becomes `KeyDown` of the old one |
| Pager.ResetShowsFirstPage | frontend/src/components/TopTracks.js:14-16 | after a reset and a non-empty list the first ten tracks are shown |
| TrackList.FormatDurationFields | src/components/TopTracks.js:55-59 | the seconds field is at most 60; minutes and seconds add up to the rounded whole seconds; it is 60 exactly when the remainder is at least 59.5 s |
| TrackList.FormatDurationShowsSixty | src/components/TopTracks.js:55-59 | 59 500 ms is shown as "0:60", and the corrected format shows "1:00" |
| TrackList.ClockReadsBack | src/components/TopTracks.js:58 | reading an `m:ss` text back gives the two fields it was printed from |
| TrackList.FormatDurationCorrectedReadsBack | src/components/TopTracks.js:55-59 | the corrected format has seconds below 60 and reads back as the duration in rounded whole seconds; the written format reads back as its raw fields |
| TrackList.Ranked | src/components/TopTracks.js:78-91 | the i-th listed track carries rank i + 1 |
| TrackList.TotalMinutes | src/components/TopTracks.js:149 | the total duration rounded to the nearest minute, halves up |
| TrackList.AveragePopularity | src/components/TopTracks.js:155 | no number (NaN) exactly for an empty list; otherwise the mean rounded to the nearest integer, halves up |
| TrackList.UniqueArtistsCounts | src/components/TopTracks.js:161 | the set holds exactly the artists of some track, and has no more members than there are artist entries |
| InstagramCards.ValueText | instagram_generator.py:137 | an integer is drawn as its decimal digits (after a minus when negative) and reads back as itself; a string is upper-cased character by character and keeps its length |
| InstagramCards.BoxAt | instagram_generator.py:129-149 | a box's value is centred 50 px and its label 100 px below the box's top, both on the box's centre line |
| InstagramCards.BoxAtTextsInside | instagram_generator.py:129-149 | both texts are anchored inside their 400 x 150 box, the value above the label |
| InstagramCards.StatsGrid | instagram_generator.py:119-149 | stat i goes to column i % 2 and row i // 2, rows 170 px apart, its value 50 px and label 100 px below the box top on the box's centre line |
| InstagramCards.StatsGridCells | instagram_generator.py:119-127 | the four stats fill the 2 x 2 cells once each; rows do not overlap, but side-by-side boxes overlap by 160 px |
| InstagramCards.RowOf | instagram_generator.py:219-236 | a row's title is at most 35 characters; a track always has a "by" line with the artist cut to 30 |
| InstagramCards.Top5Rows | instagram_generator.py:210-236 | the first five items, ranked from 1, 140 px apart from y = 270 |
| InstagramCards.RowOfReadsBack | instagram_generator.py:219-236 | a title and a track's artist line ("by " and the artist) are leading parts of the name and the artist, whole when short enough; an artist's line, for non-empty genres without ", ", is drawn exactly when there are genres and splits back into the first two |
| InstagramCards.PersonalityGradient | instagram_generator.py:251-260 | the background is chosen by the first of Party, Deep, Explorer contained in the type, else the default |
| InstagramCards.PersonalityGradientPriority | instagram_generator.py:253-260 | a type naming a party and a deep mood gets the party colours |
| InstagramCards.CreatePersonalityCard | instagram_generator.py:247-306 | gradient, title and emoji with their defaults; at most three wrapped lines 50 px apart from y = 540 |
| InstagramCards.DescriptionLinesShape | instagram_generator.py:291-306 | at most three lines, each within 30 characters unless one long word, holding the first words in order; an empty first line exactly when the first word is wider than 30 |
| InstagramCards.StorySlides | instagram_generator.py:337-355 | summary, tracks and artists, then the personality exactly when there is one |
| OfficialCards.GradientColors | backend/official_instagram_generator.py:26-32 | a known gradient name selects its colours; an unknown one falls back to `main` (line 77) |
| OfficialCards.DrawSummaryStats | backend/official_instagram_generator.py:189-211 | only `stats[:2]` is drawn, side by side, labels upper-cased |
| OfficialCards.SummaryShowsTwoStats | backend/official_instagram_generator.py:183-211 | of three stats the card shows minutes (with thousands separators) and songs only; the two cards are 40 px apart |
| OfficialCards.RankLabelIsRank | backend/official_instagram_generator.py:265 | for the ranks drawn (1..10) the label is just the rank |
| OfficialCards.RowOf | backend/official_instagram_generator.py:269-270 | the title is the leading min(28, n) characters of the name (or "Unknown"), all of it when short; a track's second line is the leading min(25, n) characters of its artist (or "Unknown"), all of it when short; an artist's second line is at most 25 characters |
| OfficialCards.TopTenRows | backend/official_instagram_generator.py:252-277 | the first ten entries, 95 px apart from y = 180 |
| OfficialCards.TopTenRowsShape | backend/official_instagram_generator.py:330-341 | every row is labelled with its own rank; an artist's second line is exactly its first genre, title-cased and cut, when it has one |
| OfficialCards.PersonalityGradientKey | backend/official_instagram_generator.py:360-365 | `warm` exactly for a party type, `cool` exactly for a deep or thinker type without a party, else `main` |
| OfficialCards.CreateListeningPersonality | backend/official_instagram_generator.py:352-410 | the gradient of the type, the type upper-cased with its default, up to four wrapped lines 40 px apart from y = 420 |
| OfficialCards.DescriptionLinesShape | backend/official_instagram_generator.py:394-407 | at most four lines, each within 35 characters unless one long word, and the lines hold the description's words in order |
| VisualCards.CombineImagesGrid | backend/enhancements/visual_cards.py:267-293 | no canvas exactly for no images; otherwise two columns of cells as large as the largest image, enough rows, each image pasted in its own cell inside the canvas, and no two cells overlap |
| VisualCards.Rows | backend/enhancements/visual_cards.py:276-277 | the fewest rows of two that hold every image |
| VisualCards.OffsetsApart | backend/enhancements/visual_cards.py:288-291 | different images' cells do not overlap |
| VisualCards.RoundHalfEven | backend/enhancements/visual_cards.py:176 | `:.0f` rounding: within one half, a tie goes to the even integer |
| VisualCards.StatsData | backend/enhancements/visual_cards.py:170-177 | the six captions in order; minutes, tracks and artists as their integers (0 when missing), the top genre ("Unknown" when missing), the popularity rounded half-even and followed by "%" ("0%" when missing), the discovery level ("High" when missing) |
| VisualCards.StatCentresFillGrid | backend/enhancements/visual_cards.py:180-186 | stat 2*row + c sits at column c and row `row` of the 2 x 3 grid, and no other stat shares its centre |
| VisualCards.StatBoxesApart | backend/enhancements/visual_cards.py:180-191 | the boxes of different stats do not overlap and lie inside the 1080 x 1350 card |
| VisualCards.CreateStatsCard | backend/enhancements/visual_cards.py:140-214 | six boxes, each stat drawn in its grid cell with the value 20 px above and the label 40 px below its centre; no two boxes overlap and all fit the card |
| VisualCards.GenreStats | backend/enhancements/visual_cards.py:362-365 | the nested loop counts every genre of every stored artist: the counts are `Counter` of all the genres |
| VisualCards.TopGenre | backend/enhancements/visual_cards.py:379 | "Unknown" without genres, else a genre of maximal count, the first such in counter order |
| VisualCards.TotalMinutes | backend/enhancements/visual_cards.py:376 | the total duration in whole minutes, rounded down |
| VisualCards.AveragePopularity | backend/enhancements/visual_cards.py:380 | 0 without tracks; otherwise the exact mean popularity |
| VisualCards.WantedCardsPresent | backend/enhancements/visual_cards.py:303-335 | each card is made exactly when its data is present, and no card twice |
| VisualCards.CardsFor | backend/enhancements/visual_cards.py:303-335 | one card per wanted kind, in order |
| VisualCards.SaveAllCards | backend/enhancements/visual_cards.py:295-343 | the cards saved are those wanted, in order; a combined image (and its path `all_cards.png`) exists exactly when some card does, with one cell per card; the message names the directory |
| VisualCards.GenerateVisualCards | backend/enhancements/visual_cards.py:346-388 | 401 exactly without a client; otherwise user data from the display name: "Your" when the field is absent, "None" (as the titles print it) when it is null, else the name; the first ten artists, the genre counts and the derived statistics, and the saved-cards message |

## Left out

- HTTP, OAuth and the `spotipy` client are left out: routes take an `authenticated` flag and the lists the API returned. The audio-features lookup takes an oracle.
- Clocks are left out: `datetime.now()` and the file modification times are parameters.
- Pixel rendering is left out: PIL and matplotlib drawing, fonts, gradient interpolation, image downloads, the pie and timeline charts, `create_wrapped_image` and `create_top_artists_card`. The model keeps the layout decisions (positions, truncations, selections), and the chart sizes are parameters.
- Floating point is left out. Means are exact `real` values. `round(x, 1)` and `statistics.mean` are not modelled, and `:.0f` is exact half-even rounding on reals.
- VisualCards.RoundHalfEven does not print the sign of a negative zero ("-0"), because values are exact reals.
- `get_storage_stats` in json_storage.py is not modelled: it only adds up file sizes from the file system.
- `save_user`, `get_sync_status` and `get_database_stats` in backend/spotify_db.py are not modelled: they are single-table writes or counts with no logic beyond the SQL.
- `get_genre_statistics` in backend/spotify_db.py is not modelled: it is a join of the ranked artists with their genres, grouped by genre and ordered by count, answered as a dictionary. Its counting and ordering are those of `Tally.MostCommon` over the ranked artists' genre rows, but the model has no member for that query.
- SpotifyDb.Database.SaveUserTopTracks, SpotifyDb.Database.SaveUserTopArtists and SpotifyDb.Database.SaveTrack model the save as one transaction on one connection, the corrected behaviour of the Findings row for backend/spotify_db.py:239-266; as written every non-empty top-tracks or top-artists save, and every `save_track` of a track with an artist, fails on the write lock, which only `SpotifyDb.NestedSavesLock` models.
- SpotifyDb.ListeningStatsOf and SpotifyDb.Database.GetListeningStats count each track's duration once, the corrected behaviour of the Findings row for backend/spotify_db.py:409-419; as written the SUM runs over the artist join, which only `SpotifyDb.JoinedMinutes` models (the two agree when no ranked track with a duration has two artist links).
- Concurrency between requests is left out. SQLite's write lock is modelled only for the nested connections of one save (`SpotifyDb.NestedSavesLock`); the `Database` class models each save as one transaction on one connection. `GROUP_CONCAT` is taken to concatenate in row order.
- SpotifyDb.TopTracksOf and SpotifyDb.TopArtistsOf require every ranked id to have a stored track or artist. An inner join would skip a ranking row whose item was never stored, and the save path never produces one.
- Text.Lower and Text.Upper map ASCII letters only, since Python's full Unicode case mapping is not modelled.
- Text.TitleCase treats only ASCII letters as cased, so a word such as "música" comes out "MúSica" where Python gives "Música"; Python's Unicode notion of a cased character is not modelled.
- TopTenRowsShape (OfficialCards) inherits that: the first genre is title-cased by `Text.TitleCase`, exact for ASCII genres only.
- Text.SplitWords splits only on ASCII blanks (space, tab, line feed, vertical tab, form feed, carriage return); Python's `str.split()` also splits on the separators `\x1c`-`\x1f` and on non-ASCII spaces, which are not modelled.
- Pager.ParseInt treats only ASCII blanks as leading whitespace and does not read the `0x` prefix, since JavaScript's full whitespace set and hexadecimal parsing are not modelled.
- Durations are natural numbers in TrackList, because a negative duration cannot come from the upstream.
- In app.py, `genre_artists_map` is built but never read. It is not modelled.
- The cache, time-to-live and sync features that appear only in the test files are not modelled, because the core does not contain them.
- In backend/enhancements/visual_cards.py, the route reads a `storage`, a `get_user_id` and an `app` that the file never defines. The model takes the stored artists and tracks as parameters.
- `audio_features_endpoint` in audio_features.py is not modelled, because it calls that same undefined storage.
- InstagramCards models only the stats grid of the summary card; its top track and top artist sections are drawing only.

## Findings

| source | as written | input that shows it | evidently intended | confidence | as-written member | corrected member |
|---|---|---|---|---|---|---|
| backend/spotify_db.py:409-419 | `SUM(t.duration_ms)` runs over the LEFT JOIN with `track_artists`, so each track's duration is added once per linked artist | one ranked 60 000 ms track with two artists reports 2 minutes | each track's duration counted once | high (not executed) | SpotifyDb.JoinedTotalDoubleCounts | SpotifyDb.JoinedTotalAgrees |
| backend/spotify_db.py:239-266 | each save opens its own connection, and in WAL mode only one connection may write; the caller's DELETE (or `save_track`'s INSERT) holds the write lock while the nested `save_track` (or `save_artist`) asks for it, so that write times out with "database is locked" and the whole save is rolled back | saving any non-empty list of top tracks or artists, or a track with one artist | one transaction per save: the nested saves write on the caller's connection and leave the single commit to it | high (not executed) | SpotifyDb.NestedSavesLock | SpotifyDb.SharedConnectionCompletes |
| src/components/TopTracks.js:55-59 | the seconds are rounded after the minutes are taken off, so a remainder of 59.5 s or more shows as ":60" | 59 500 ms shows "0:60" | round to whole seconds first, giving "1:00" | high (not executed) | TrackList.FormatDurationShowsSixty | TrackList.FormatDurationCorrectedReadsBack |
