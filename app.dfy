/**
 * The web application's request validation and its pure aggregation: top-items requests, the
 * "wrapped" statistics, the taste tags, the audio aura and the listening personality. The
 * upstream music service is an oracle: its answers are the lists these functions take.
 */
module App {
  import opened Prelude
  import opened Text
  import opened Tally
  import SpotifyDb

  // ---- Upstream items ----

  datatype ApiArtist = ApiArtist(id: string, name: string, genres: seq<string>, images: seq<string>,
                                 popularity: int, followers: int)

  datatype ApiTrack = ApiTrack(id: string, name: string, artists: seq<string>, album: string, albumImages: seq<string>,
                               durationMs: int, popularity: int, previewUrl: Option<string>)

  const ItemTypes: seq<string> := ["tracks", "artists"]
  const TimeRanges: seq<string> := ["short_term", "medium_term", "long_term"]

  /** How a request is answered before (or instead of) calling the upstream. */
  datatype Route = Unauthorized | BadRequest(error: string) | Fetch(tracks: bool, artists: bool, limit: nat, timeRange: string)

  /** `get_top_items`: 401 without a client, 400 for an unknown item type, then for an unknown range. */
  function TopItemsRoute(authenticated: bool, itemType: string, timeRange: string): (r: Route)
    ensures r.Unauthorized? <==> !authenticated
    ensures r.BadRequest? <==> authenticated && (itemType !in ItemTypes || timeRange !in TimeRanges)
    ensures r.BadRequest? ==> r.error == if itemType !in ItemTypes then "Invalid item type" else "Invalid time range"
    ensures r.Fetch? ==> r.limit == 50 && r.timeRange == timeRange && (r.tracks <==> itemType == "tracks")
                         && (r.artists <==> itemType == "artists") && (r.tracks != r.artists)
  {
    if !authenticated then Unauthorized
    else if itemType !in ItemTypes then BadRequest("Invalid item type")
    else if timeRange !in TimeRanges then BadRequest("Invalid time range")
    else if itemType == "tracks" then Fetch(true, false, 50, timeRange)
    else Fetch(false, true, 50, timeRange)
  }

  /** `get_wrapped_stats`: 401 without a client, 400 for an unknown range, else both lists of 50. */
  function WrappedStatsRoute(authenticated: bool, timeRange: string): (r: Route)
    ensures r.Unauthorized? <==> !authenticated
    ensures r.BadRequest? <==> authenticated && timeRange !in TimeRanges
    ensures r.Fetch? ==> r == Fetch(true, true, 50, timeRange)
  {
    if !authenticated then Unauthorized
    else if timeRange !in TimeRanges then BadRequest("Invalid time range")
    else Fetch(true, true, 50, timeRange)
  }

  /** The fields of one track in the `get_top_items` answer that the code derives. */
  datatype TrackItem = TrackItem(id: string, name: string, artist: string, artists: seq<string>, album: string,
                                 image: Option<string>, durationMs: int, popularity: int)

  function FirstOr<T>(xs: seq<T>, default: T): (r: T)
    ensures xs == [] ==> r == default
    ensures xs != [] ==> r == xs[0]
  {
    if xs == [] then default else xs[0]
  }

  function FirstImage(images: seq<string>): (r: Option<string>)
    ensures r.None? <==> images == []
    ensures r.Some? ==> r.value == images[0]
  {
    if images == [] then None else Some(images[0])
  }

  /** A track as `get_top_items` reports it: the first artist, or "Unknown" when there is none. */
  function TrackItemOf(t: ApiTrack): (r: TrackItem)
    ensures r.artists == t.artists
    ensures r.artist == if t.artists == [] then "Unknown" else t.artists[0]
  {
    TrackItem(t.id, t.name, FirstOr(t.artists, "Unknown"), t.artists, t.album, FirstImage(t.albumImages),
              t.durationMs, t.popularity)
  }

  // ---- Labels ----

  /** `get_time_period_label`: a known range gets its own label, anything else passes unchanged. */
  function TimePeriodLabel(timeRange: string): (text: string)
    ensures text == timeRange <==> timeRange !in TimeRanges
  {
    if timeRange == "short_term" then "Last 4 Weeks"
    else if timeRange == "medium_term" then "Last 6 Months"
    else if timeRange == "long_term" then "All Time"
    else timeRange
  }

  /** The three ranges get three different labels, none of which is itself a range name. */
  lemma TimePeriodLabelsDistinct()
    ensures forall a, b :: a in TimeRanges && b in TimeRanges && a != b ==> TimePeriodLabel(a) != TimePeriodLabel(b)
    ensures forall a :: a in TimeRanges ==> TimePeriodLabel(a) !in TimeRanges
  {
  }

  // ---- Classification by substring ----

  /** Index of the first keyword group with a member contained in `s` (`|groups|` if none). */
  function FirstMatching(s: string, groups: seq<seq<string>>): (k: nat)
    ensures k <= |groups|
    ensures k < |groups| ==> ContainsAny(s, groups[k])
    ensures forall j :: 0 <= j < k ==> !ContainsAny(s, groups[j])
  {
    if groups == [] then 0
    else if ContainsAny(s, groups[0]) then 0
    else
      var k := FirstMatching(s, groups[1..]);
      assert forall j :: 1 <= j < 1 + k ==> groups[j] == groups[1..][j - 1];
      1 + k
  }

  /** The mean of `xs`, 0 for an empty list. */
  function AvgOrZero(xs: seq<int>): (m: real)
    ensures xs == [] ==> m == 0.0
    ensures xs != [] ==> m * (|xs| as real) == Sum(xs) as real
  {
    if xs == [] then 0.0 else (Sum(xs) as real) / (|xs| as real)
  }

  function Popularities(ts: seq<ApiTrack>): (ps: seq<int>)
    ensures |ps| == |ts| && forall i :: 0 <= i < |ts| ==> ps[i] == ts[i].popularity
  {
    seq(|ts|, i requires 0 <= i < |ts| => ts[i].popularity)
  }

  function Durations(ts: seq<ApiTrack>): (ds: seq<int>)
    ensures |ds| == |ts| && forall i :: 0 <= i < |ts| ==> ds[i] == ts[i].durationMs
  {
    seq(|ts|, i requires 0 <= i < |ts| => ts[i].durationMs)
  }

  function GenreLists(arts: seq<ApiArtist>): (gs: seq<seq<string>>)
    ensures |gs| == |arts| && forall i :: 0 <= i < |arts| ==> gs[i] == arts[i].genres
  {
    seq(|arts|, i requires 0 <= i < |arts| => arts[i].genres)
  }

  const TasteFamilies: seq<seq<string>> :=
    [["indie", "alternative"], ["pop", "dance"], ["rap", "hip hop"], ["rock", "metal"], ["electronic", "edm"]]
  const TasteTags: seq<string> :=
    ["Indie Explorer", "Pop Enthusiast", "Hip-Hop Head", "Rock Devotee", "Electronic Vibes"]

  function FamilyTags(counts: Counts): (tags: seq<string>)
    ensures |tags| <= 1
    ensures |counts| > 0 && FirstMatching(MaxKey(counts), TasteFamilies) < 5 ==>
      tags == [TasteTags[FirstMatching(MaxKey(counts), TasteFamilies)]]
    ensures !(|counts| > 0 && FirstMatching(MaxKey(counts), TasteFamilies) < 5) ==> tags == []
  {
    if |counts| == 0 then []
    else
      var k := FirstMatching(MaxKey(counts), TasteFamilies);
      if k < 5 then [TasteTags[k]] else []
  }

  function DiversityTags(counts: Counts): seq<string>
  {
    if |counts| > 15 then ["Genre Adventurer"] else if |counts| < 5 then ["Loyal Listener"] else []
  }

  function PopularityTags(avg: real): seq<string>
  {
    if avg > 70.0 then ["Mainstream Maven"] else if avg < 40.0 then ["Underground Explorer"] else []
  }

  /** `analyze_music_taste` before its `[:3]` cut. */
  function TasteCandidates(tracks: seq<ApiTrack>, counts: Counts): seq<string>
  {
    FamilyTags(counts) + DiversityTags(counts) + PopularityTags(AvgOrZero(Popularities(tracks)))
  }

  /** `analyze_music_taste`. */
  function AnalyzeMusicTaste(tracks: seq<ApiTrack>, counts: Counts): seq<string>
  {
    Prefix(TasteCandidates(tracks, counts), 3)
  }

  /**
   * At most one tag comes from each of the three groups, so the `[:3]` cut never drops one; the
   * genre-family tag of the most frequent genre, when there is one, comes first; the diversity tags
   * follow the number of distinct genres and the popularity tags follow the mean popularity
   * (0 for no tracks, which reads as "Underground Explorer").
   */
  lemma AnalyzeMusicTasteShape(tracks: seq<ApiTrack>, counts: Counts)
    ensures var tags := AnalyzeMusicTaste(tracks, counts);
      && tags == TasteCandidates(tracks, counts) && |tags| <= 3
      && (|counts| > 0 && FirstMatching(MaxKey(counts), TasteFamilies) < 5 ==>
            tags[0] == TasteTags[FirstMatching(MaxKey(counts), TasteFamilies)])
      && ("Genre Adventurer" in tags <==> |counts| > 15)
      && ("Loyal Listener" in tags <==> |counts| < 5)
      && (tracks == [] ==> "Underground Explorer" in tags)
  {
    var f, d, p := FamilyTags(counts), DiversityTags(counts), PopularityTags(AvgOrZero(Popularities(tracks)));
    assert forall t :: t in f ==> t in TasteTags;
    assert f + d + p == TasteCandidates(tracks, counts);
  }

  // ---- Audio aura ----

  datatype Color = Color(name: string, hex: string, gradient: string)

  /** `genre_colors`, in its declaration order. */
  const GenreColors: seq<(string, Color)> := [
    ("pop", Color("Pink Pop", "#FF69B4", "from-pink-400 to-pink-600")),
    ("rock", Color("Electric Blue", "#00CED1", "from-cyan-400 to-blue-600")),
    ("hip hop", Color("Purple Vibes", "#9370DB", "from-purple-400 to-purple-700")),
    ("rap", Color("Purple Vibes", "#9370DB", "from-purple-400 to-purple-700")),
    ("electronic", Color("Neon Green", "#39FF14", "from-green-400 to-emerald-600")),
    ("edm", Color("Neon Green", "#39FF14", "from-green-400 to-emerald-600")),
    ("indie", Color("Sunset Orange", "#FF8C00", "from-orange-400 to-orange-600")),
    ("alternative", Color("Sunset Orange", "#FF8C00", "from-orange-400 to-orange-600")),
    ("jazz", Color("Golden Hour", "#FFD700", "from-yellow-400 to-amber-600")),
    ("classical", Color("Royal Purple", "#6A0DAD", "from-purple-600 to-purple-900")),
    ("metal", Color("Crimson Red", "#DC143C", "from-red-600 to-red-900")),
    ("country", Color("Desert Sand", "#F4A460", "from-orange-300 to-orange-500")),
    ("r&b", Color("Velvet Blue", "#4B0082", "from-indigo-500 to-indigo-700")),
    ("soul", Color("Velvet Blue", "#4B0082", "from-indigo-500 to-indigo-700")),
    ("latin", Color("Tropical Teal", "#00CED1", "from-teal-400 to-cyan-600"))
  ]

  const DefaultColor: Color := Color("Cosmic Purple", "#8A2BE2", "from-violet-500 to-purple-600")

  /** Index of the first table key contained in `s` (`|table|` if none). */
  function FirstKeyIn(s: string, table: seq<(string, Color)>): (k: nat)
    ensures k <= |table|
    ensures k < |table| ==> Contains(s, table[k].0)
    ensures forall j :: 0 <= j < k ==> !Contains(s, table[j].0)
  {
    if table == [] then 0
    else if Contains(s, table[0].0) then 0
    else
      var k := FirstKeyIn(s, table[1..]);
      assert forall j :: 1 <= j < 1 + k ==> table[j] == table[1..][j - 1];
      1 + k
  }

  /** The first index that matches with none before it is the one `FirstKeyIn` finds. */
  lemma FirstKeyInUnique(s: string, table: seq<(string, Color)>, j: nat)
    requires j <= |table| && (j < |table| ==> Contains(s, table[j].0))
    requires forall m :: 0 <= m < j ==> !Contains(s, table[m].0)
    ensures FirstKeyIn(s, table) == j
  {
  }

  /** The colour of one genre: the first key contained in the lower-cased genre, else the default. */
  function AuraColor(genre: string): Color
  {
    var k := FirstKeyIn(Lower(genre), GenreColors);
    if k < |GenreColors| then GenreColors[k].1 else DefaultColor
  }

  /** `generate_audio_aura` as a value: exactly three colours, one per top genre, then the default. */
  function Aura(topGenres: Counts): (aura: seq<Color>)
    ensures |aura| == 3
    ensures forall i :: 0 <= i < 3 ==> aura[i] == if i < |topGenres| then AuraColor(topGenres[i].0) else DefaultColor
  {
    seq(3, i requires 0 <= i < 3 => if i < |topGenres| then AuraColor(topGenres[i].0) else DefaultColor)
  }

  /** One genre's colour: the scan of the colour table with `break`, and the default after it. */
  method GenreColor(g: string) returns (c: Color)
    ensures c == AuraColor(g)
  {
    var genre := Lower(g);
    var j := 0;
    while j < |GenreColors|
      invariant 0 <= j <= |GenreColors|
      invariant forall m :: 0 <= m < j ==> !Contains(genre, GenreColors[m].0)
    {
      if Contains(genre, GenreColors[j].0) {
        FirstKeyInUnique(genre, GenreColors, j);
        return GenreColors[j].1;
      }
      j := j + 1;
    }
    FirstKeyInUnique(genre, GenreColors, j);
    c := DefaultColor;
  }

  /** The colours of the first `n` top genres, in order. */
  method TopGenreColors(topGenres: Counts, n: nat) returns (colors: seq<Color>)
    requires n <= |topGenres|
    ensures |colors| == n
    ensures forall i :: 0 <= i < n ==> colors[i] == AuraColor(topGenres[i].0)
  {
    ghost var want := seq(n, i requires 0 <= i < n => AuraColor(topGenres[i].0));
    colors := [];
    for gi := 0 to n
      invariant colors == want[..gi]
    {
      var c := GenreColor(topGenres[gi].0);
      assert want[..gi + 1] == want[..gi] + [want[gi]];
      colors := colors + [c];
    }
    assert want[..n] == want;
  }

  /** `generate_audio_aura`: one colour per top genre, then the padding loop. */
  method GenerateAudioAura(topGenres: Counts) returns (aura: seq<Color>)
    ensures aura == Aura(topGenres)
  {
    var n := Min(3, |topGenres|);
    aura := TopGenreColors(topGenres, n);
    while |aura| < 3
      invariant n <= |aura| <= 3
      invariant forall i :: 0 <= i < n ==> aura[i] == AuraColor(topGenres[i].0)
      invariant forall i :: n <= i < |aura| ==> aura[i] == DefaultColor
      decreases 3 - |aura|
    {
      aura := aura + [DefaultColor];
    }
    aura := aura[..3];
    AuraOfParts(topGenres, aura, n);
  }

  /** Three colours, the top genres' first and the default after them, are the aura. */
  lemma AuraOfParts(topGenres: Counts, aura: seq<Color>, n: nat)
    requires n == Min(3, |topGenres|) && |aura| == 3
    requires forall i :: 0 <= i < n ==> aura[i] == AuraColor(topGenres[i].0)
    requires forall i :: n <= i < 3 ==> aura[i] == DefaultColor
    ensures aura == Aura(topGenres)
  {
    var a := Aura(topGenres);
    forall i | 0 <= i < 3
      ensures aura[i] == a[i]
    {
    }
  }

  /**
   * The two classifications read the table in different orders: "indie pop" gets the pop colour
   * (pop is the aura table's first key) but the indie taste tag (indie is the taste rules' first group).
   */
  lemma IndiePopDisagrees()
    ensures AuraColor("indie pop").name == "Pink Pop"
    ensures FirstMatching("indie pop", TasteFamilies) == 0
  {
    var g := "indie pop";
    LowerOfLower(g);
    ContainsAt(g, "pop", 6);
    ContainsAt(g, "indie", 0);
    assert ContainsAny(g, TasteFamilies[0]) by { assert Contains(g, TasteFamilies[0][0]); }
  }

  lemma LowerOfLower(s: string)
    requires forall i :: 0 <= i < |s| ==> !('A' <= s[i] <= 'Z')
    ensures Lower(s) == s
  {
  }

  // ---- Listening personality ----

  datatype Trait = Trait(kind: string, description: string, icon: string)

  const PersonalityFamilies: seq<seq<string>> :=
    [["indie", "alternative"], ["pop", "dance"], ["rap", "hip hop"], ["rock", "metal"],
     ["electronic", "edm", "house"], ["jazz", "classical"]]

  const GenrePersonalities: seq<Trait> := [
    Trait("The Indie Explorer", "You venture off the beaten path to discover hidden gems", "\U{1F3B8}"),
    Trait("The Pop Perfectionist", "You know every word to every chart-topper", "\U{2728}"),
    Trait("The Beat Seeker", "You live for the rhythm and the bars", "\U{1F3A4}"),
    Trait("The Rock Revolutionary", "You prefer your music loud and legendary", "\U{1F918}"),
    Trait("The Electronic Enthusiast", "You ride the waves of synthesized soundscapes", "\U{1F39B}\U{FE0F}"),
    Trait("The Sophisticated Listener", "You appreciate the finer nuances of musical composition", "\U{1F3BC}"),
    Trait("The Eclectic Collector", "Your taste knows no boundaries", "\U{1F3B5}")
  ]

  /** The genre personality of a top genre: the first matching family, else the eclectic one. */
  function GenrePersonality(topGenre: string): Trait
  {
    GenrePersonalities[FirstMatching(topGenre, PersonalityFamilies)]
  }

  function DiversityTraits(diversity: nat): seq<Trait>
  {
    if diversity > 20 then
      [Trait("Genre Hopper", "You explored " + NatToString(diversity) + " different genres this year", "\U{1F308}")]
    else if diversity < 5 then [Trait("Loyalist", "You know what you like and stick to it", "\U{1F4AF}")]
    else []
  }

  function PopularityTraits(avg: real): seq<Trait>
  {
    if avg > 75.0 then [Trait("Trendsetter", "You're always on top of what's hot", "\U{1F525}")]
    else if avg < 40.0 then [Trait("Underground Scout", "You find the best music before it's cool", "\U{1F50D}")]
    else []
  }

  function DurationTraits(avg: real): seq<Trait>
  {
    if avg > 240000.0 then [Trait("Deep Diver", "You prefer longer, more complex compositions", "\U{1F30A}")]
    else if avg < 180000.0 then [Trait("Quick Hitter", "You like your music punchy and to the point", "\U{26A1}")]
    else []
  }

  /** `determine_listening_personality` before its `[:3]` cut. */
  function PersonalityCandidates(tracks: seq<ApiTrack>, counts: Counts): seq<Trait>
  {
    (if |counts| > 0 then [GenrePersonality(MaxKey(counts))] else [])
    + DiversityTraits(|counts|)
    + PopularityTraits(AvgOrZero(Popularities(tracks)))
    + DurationTraits(AvgOrZero(Durations(tracks)))
  }

  /** `determine_listening_personality`. */
  function DetermineListeningPersonality(tracks: seq<ApiTrack>, counts: Counts): seq<Trait>
  {
    Prefix(PersonalityCandidates(tracks, counts), 3)
  }

  /**
   * At most three traits; with any genres the first is always a genre personality (the eclectic
   * one when no family matches). The cut drops something only when all four groups produce a
   * trait, and then it drops exactly the duration trait.
   */
  lemma PersonalityShape(tracks: seq<ApiTrack>, counts: Counts)
    ensures var r := DetermineListeningPersonality(tracks, counts);
      var all := PersonalityCandidates(tracks, counts);
      && |r| <= 3 && |all| <= 4
      && (|counts| > 0 ==> r[0] == GenrePersonality(MaxKey(counts)) && r[0] in GenrePersonalities)
      && (|all| <= 3 ==> r == all)
      && (|all| == 4 <==> |counts| > 0 && DiversityTraits(|counts|) != [] &&
                          PopularityTraits(AvgOrZero(Popularities(tracks))) != [] &&
                          DurationTraits(AvgOrZero(Durations(tracks))) != [])
      && (|all| == 4 ==> r == all[..3] && all[3] == DurationTraits(AvgOrZero(Durations(tracks)))[0])
  {
  }

  // ---- The statistics routes ----

  /** The genres of all artists, in order (the `extend` loop). */
  function AllGenres(arts: seq<ApiArtist>): seq<string>
  {
    Flatten(GenreLists(arts))
  }

  datatype TopArtistSummary = TopArtistSummary(name: string, image: Option<string>, genres: seq<string>)
  datatype TopTrackSummary = TopTrackSummary(name: string, artist: string, image: Option<string>)

  datatype WrappedStats = WrappedStats(
    topArtist: TopArtistSummary, topTrack: TopTrackSummary, topGenre: string, topGenres: Counts,
    totalMinutes: int, avgPopularity: real, totalArtists: nat, totalTracks: nat,
    characteristics: seq<string>, timePeriod: string)

  /** Whole minutes of a total in milliseconds, rounded down (`// 60000`). */
  function Minutes(totalMs: int): (m: int)
    ensures m * 60000 <= totalMs < (m + 1) * 60000
  {
    totalMs / 60000
  }

  /** The statistics' top artist: the first artist with at most its first three genres, or "Unknown". */
  function TopArtistSummaryOf(artists: seq<ApiArtist>): (a: TopArtistSummary)
    ensures a.name == if artists == [] then "Unknown" else artists[0].name
    ensures artists == [] ==> a.genres == [] && a.image.None?
    ensures artists != [] ==> |a.genres| == Min(3, |artists[0].genres|) && a.genres == artists[0].genres[..|a.genres|]
  {
    if artists == [] then TopArtistSummary("Unknown", None, [])
    else TopArtistSummary(artists[0].name, FirstImage(artists[0].images), Prefix(artists[0].genres, 3))
  }

  /** The statistics' top track: the first track under its first artist, or "Unknown". */
  function TopTrackSummaryOf(tracks: seq<ApiTrack>): (t: TopTrackSummary)
    ensures t.name == if tracks == [] then "Unknown" else tracks[0].name
    ensures t.artist == if tracks == [] || tracks[0].artists == [] then "Unknown" else tracks[0].artists[0]
  {
    if tracks == [] then TopTrackSummary("Unknown", "Unknown", None)
    else TopTrackSummary(tracks[0].name, FirstOr(tracks[0].artists, "Unknown"), FirstImage(tracks[0].albumImages))
  }

  /**
   * The statistics `get_wrapped_stats` returns: the top artist and track, the total in whole minutes rounded
   * down, the mean popularity (0 without tracks, before `round(.., 1)`), the list sizes and the
   * period's label.
   */
  function WrappedStatsOf(tracks: seq<ApiTrack>, artists: seq<ApiArtist>, timeRange: string): (s: WrappedStats)
    ensures s.topArtist == TopArtistSummaryOf(artists) && s.topTrack == TopTrackSummaryOf(tracks)
    ensures s.totalMinutes == Minutes(Sum(Durations(tracks)))
    ensures s.avgPopularity == AvgOrZero(Popularities(tracks))
    ensures s.totalArtists == |artists| && s.totalTracks == |tracks|
    ensures s.timePeriod == TimePeriodLabel(timeRange)
  {
    var counts := Tally.Tally(AllGenres(artists));
    var top := MostCommon(counts, 10);
    WrappedStats(
      TopArtistSummaryOf(artists), TopTrackSummaryOf(tracks),
      if top == [] then "Unknown" else top[0].0,
      top,
      Minutes(Sum(Durations(tracks))),
      AvgOrZero(Popularities(tracks)),
      |artists|, |tracks|,
      AnalyzeMusicTaste(tracks, counts),
      TimePeriodLabel(timeRange))
  }

  /**
   * The statistics name as top genre the genre that occurs most often across the artists (the
   * first met on a tie, as `max(.., key=counts.get)` would), list at most ten genres with their
   * true occurrence counts in descending order, and one genre per distinct genre up to ten.
   */
  lemma WrappedStatsGenres(tracks: seq<ApiTrack>, artists: seq<ApiArtist>, timeRange: string)
    ensures var s := WrappedStatsOf(tracks, artists, timeRange);
      var all := AllGenres(artists);
      && (s.topGenre == if all == [] then "Unknown" else MaxKey(Tally.Tally(all)))
      && |s.topGenres| == Min(10, |set g | g in all|)
      && SortedByCount(s.topGenres)
      && (forall i :: 0 <= i < |s.topGenres| ==> s.topGenres[i].1 == Occurrences(all, s.topGenres[i].0))
  {
    var all := AllGenres(artists);
    TallySize(all);
    MostCommonCounts(all, 10);
    if all != [] {
      assert HasKey(Tally.Tally(all), all[0]);
      MostCommonHeadIsMaxKey(Tally.Tally(all), 10);
    }
  }

  // ---- The yearly wrapped ----

  /** `medium_term` for the current year, `long_term` for any other. */
  function WrappedTimeRange(year: int, currentYear: int): (r: string)
    ensures r == "medium_term" <==> year == currentYear
    ensures r in TimeRanges
  {
    if year == currentYear then "medium_term" else "long_term"
  }

  datatype FormattedTrack = FormattedTrack(position: nat, name: string, artist: string, album: string,
                                           image: Option<string>, durationMs: int, previewUrl: Option<string>)

  datatype FormattedArtist = FormattedArtist(position: nat, name: string, image: Option<string>,
                                             genres: seq<string>, followers: int)

  datatype Wrapped = Wrapped(
    year: int, timePeriod: string, topTracks: seq<FormattedTrack>, topArtists: seq<FormattedArtist>,
    totalMinutes: int, totalHours: int, topGenres: Counts, genreTotal: nat, audioAura: seq<Color>,
    personality: seq<Trait>, uniqueArtists: nat, uniqueGenres: nat, avgPopularity: real,
    topArtistStatus: Option<string>, topSong: Option<FormattedTrack>, topArtist: Option<FormattedArtist>,
    generatedAt: Instant)

  /** The route answers 500 (an uncaught exception) instead of a wrapped summary. */
  datatype Failure = ServerError

  function FormatTrack(t: ApiTrack, position: nat): FormattedTrack
    requires t.artists != []
  {
    FormattedTrack(position, t.name, t.artists[0], t.album, FirstImage(t.albumImages), t.durationMs, t.previewUrl)
  }

  function FormatArtist(a: ApiArtist, position: nat): FormattedArtist
  {
    FormattedArtist(position, a.name, FirstImage(a.images), Prefix(a.genres, 2), a.followers)
  }

  /** A top-five track without artists makes `track['artists'][0]` raise. */
  predicate TopFiveHaveArtists(tracks: seq<ApiTrack>)
  {
    forall i :: 0 <= i < Min(5, |tracks|) ==> tracks[i].artists != []
  }

  function MonthLabel(year: int, currentYear: int): string
  {
    if year == currentYear then "October" else "December"
  }

  /**
   * The wrapped's period, "January - <month> <year>": its month starts with 'O' (October)
   * exactly for the current year, and it ends with the year's digits.
   */
  function WrappedPeriodLabel(year: int, currentYear: int): (p: string)
    ensures |p| > 10 && p[..10] == "January - "
    ensures p[10] == 'O' <==> year == currentYear
    ensures |p| > |IntToString(year)| && p[|p| - |IntToString(year)|..] == IntToString(year)
  {
    var month, digits := MonthLabel(year, currentYear), IntToString(year);
    var tail := month + " " + digits;
    assert tail[0] == month[0] && tail[|tail| - |digits|..] == digits;
    var p := "January - " + tail;
    assert p[..10] == "January - " && p[10] == tail[0] && p[|p| - |digits|..] == tail[|tail| - |digits|..];
    p
  }

  /** Two years of the same request give the same period label exactly when they are the same year. */
  lemma WrappedPeriodLabelsDistinct(y1: int, y2: int, currentYear: int)
    ensures WrappedPeriodLabel(y1, currentYear) == WrappedPeriodLabel(y2, currentYear) <==> y1 == y2
  {
    var p1, p2 := WrappedPeriodLabel(y1, currentYear), WrappedPeriodLabel(y2, currentYear);
    if p1 == p2 && y1 != currentYear && y2 != currentYear {
      assert p1 == "January - December " + IntToString(y1);
      assert p2 == "January - December " + IntToString(y2);
      assert p1[19..] == IntToString(y1) && p2[19..] == IntToString(y2);
      IntToStringInjective(y1, y2);
    }
  }

  /**
   * `spotify_wrapped` over the two fetched lists, with `all_genres` given. The mean popularity
   * divides by the number of tracks without a guard and the top-five formatting reads each
   * track's first artist, so both failures end in a 500.
   */
  function WrappedOf(year: int, currentYear: int, now: Instant, tracks: seq<ApiTrack>, artists: seq<ApiArtist>,
                     allGenres: seq<string>): (r: Result<Wrapped, Failure>)
    ensures r.Err? <==> tracks == [] || !TopFiveHaveArtists(tracks)
    ensures r.Ok? ==> r.value.topTracks == FormatTopTracks(tracks) && r.value.topArtists == FormatTopArtists(artists)
  {
    if tracks == [] || !TopFiveHaveArtists(tracks) then Err(ServerError)
    else Ok(WrappedSummary(year, currentYear, now, tracks, artists, allGenres))
  }

  /** The top five tracks, numbered from 1. */
  function FormatTopTracks(tracks: seq<ApiTrack>): (r: seq<FormattedTrack>)
    requires TopFiveHaveArtists(tracks)
    ensures |r| == Min(5, |tracks|)
    ensures forall i :: 0 <= i < |r| ==> r[i] == FormatTrack(tracks[i], i + 1)
  {
    var k := Min(5, |tracks|);
    seq(k, i requires 0 <= i < k => FormatTrack(tracks[i], i + 1))
  }

  /** The top five artists, numbered from 1. */
  function FormatTopArtists(artists: seq<ApiArtist>): (r: seq<FormattedArtist>)
    ensures |r| == Min(5, |artists|)
    ensures forall i :: 0 <= i < |r| ==> r[i] == FormatArtist(artists[i], i + 1)
  {
    var m := Min(5, |artists|);
    seq(m, i requires 0 <= i < m => FormatArtist(artists[i], i + 1))
  }

  function WrappedSummary(year: int, currentYear: int, now: Instant, tracks: seq<ApiTrack>, artists: seq<ApiArtist>,
                          allGenres: seq<string>): Wrapped
    requires tracks != [] && TopFiveHaveArtists(tracks)
  {
    var counts := Tally.Tally(allGenres);
    var top := MostCommon(counts, 5);
    var formattedTracks := FormatTopTracks(tracks);
    var formattedArtists := FormatTopArtists(artists);
    var totalMinutes := Minutes(Sum(Durations(tracks)));
    Wrapped(
      year, WrappedPeriodLabel(year, currentYear),
      formattedTracks, formattedArtists,
      totalMinutes, totalMinutes / 60,
      top, Total(counts),
      Aura(top),
      DetermineListeningPersonality(tracks, counts),
      |artists|, |set g | g in allGenres|,
      (Sum(Popularities(tracks)) as real) / (|tracks| as real),
      if artists != [] then Some(artists[0].name) else None,
      Some(formattedTracks[0]),
      if artists != [] then Some(formattedArtists[0]) else None,
      now)
  }

  /**
   * The summary lists the first five tracks and artists in their upstream order, numbered from 1,
   * each track under its first artist, and names as top song and top artist the first of each.
   */
  lemma WrappedRanks(year: int, currentYear: int, now: Instant, tracks: seq<ApiTrack>, artists: seq<ApiArtist>,
                     allGenres: seq<string>)
    requires tracks != [] && TopFiveHaveArtists(tracks)
    ensures var w := WrappedOf(year, currentYear, now, tracks, artists, allGenres).value;
      && |w.topTracks| == Min(5, |tracks|) && |w.topArtists| == Min(5, |artists|)
      && (forall i :: 0 <= i < |w.topTracks| ==>
            (w.topTracks[i].position == i + 1 && w.topTracks[i].name == tracks[i].name
             && w.topTracks[i].artist == tracks[i].artists[0]))
      && (forall i :: 0 <= i < |w.topArtists| ==>
            (w.topArtists[i].position == i + 1 && w.topArtists[i].name == artists[i].name
             && |w.topArtists[i].genres| <= 2))
      && w.topSong == Some(w.topTracks[0])
      && (w.topArtist.Some? <==> artists != [])
  {
    var w := WrappedSummary(year, currentYear, now, tracks, artists, allGenres);
    assert WrappedOf(year, currentYear, now, tracks, artists, allGenres) == Ok(w);
    assert w.topTracks == FormatTopTracks(tracks) && w.topArtists == FormatTopArtists(artists);
  }

  /**
   * The summaries of two years tell them apart by their period alone, and the period of a
   * summary ends with its year and names October exactly for the current year.
   */
  lemma WrappedPeriod(y1: int, y2: int, currentYear: int, now: Instant, tracks: seq<ApiTrack>,
                      artists: seq<ApiArtist>, allGenres: seq<string>)
    requires tracks != [] && TopFiveHaveArtists(tracks)
    ensures var p1 := WrappedOf(y1, currentYear, now, tracks, artists, allGenres).value.timePeriod;
      var p2 := WrappedOf(y2, currentYear, now, tracks, artists, allGenres).value.timePeriod;
      && (p1 == p2 <==> y1 == y2)
      && (p1[10] == 'O' <==> y1 == currentYear)
      && p1[|p1| - |IntToString(y1)|..] == IntToString(y1)
  {
    WrappedPeriodLabelsDistinct(y1, y2, currentYear);
  }

  /** `spotify_wrapped`'s genre loop: every genre of every artist, in order. */
  method CollectGenres(artists: seq<ApiArtist>) returns (all: seq<string>)
    ensures all == AllGenres(artists)
  {
    all := [];
    for i := 0 to |artists|
      invariant all == Flatten(GenreLists(artists[..i]))
    {
      var gs := artists[i].genres;
      ghost var before := all;
      for j := 0 to |gs|
        invariant all == before + gs[..j]
      {
        assert gs[..j + 1] == gs[..j] + [gs[j]];
        all := all + [gs[j]];
      }
      assert gs[..|gs|] == gs;
      GenreListsSnoc(artists, i);
    }
    assert artists[..|artists|] == artists;
  }

  lemma GenreListsSnoc(artists: seq<ApiArtist>, i: nat)
    requires i < |artists|
    ensures Flatten(GenreLists(artists[..i + 1])) == Flatten(GenreLists(artists[..i])) + artists[i].genres
  {
    assert GenreLists(artists[..i + 1]) == GenreLists(artists[..i]) + [artists[i].genres];
    FlattenAppend(GenreLists(artists[..i]), [artists[i].genres]);
    FlattenSingle(artists[i].genres);
  }

  /** `spotify_wrapped` once the upstream has answered. */
  method SpotifyWrapped(year: int, currentYear: int, now: Instant, tracks: seq<ApiTrack>, artists: seq<ApiArtist>)
    returns (r: Result<Wrapped, Failure>)
    ensures r == WrappedOf(year, currentYear, now, tracks, artists, AllGenres(artists))
  {
    var all := CollectGenres(artists);
    r := WrappedOf(year, currentYear, now, tracks, artists, all);
  }

  /**
   * The summary's totals: hours are whole hours of the total duration and agree with the
   * database's listening statistics for the same total; the genre total that the percentages
   * divide by is the number of genre entries; the genre count is the number of distinct genres;
   * there are always three aura colours and at most three personality traits.
   */
  lemma WrappedTotals(year: int, currentYear: int, now: Instant, tracks: seq<ApiTrack>, artists: seq<ApiArtist>)
    requires tracks != [] && TopFiveHaveArtists(tracks)
    ensures var r := WrappedOf(year, currentYear, now, tracks, artists, AllGenres(artists));
      var total := Sum(Durations(tracks));
      && r.value.totalHours == total / 3_600_000
      && (r.value.totalMinutes, r.value.totalHours) == SpotifyDb.MinutesAndHours(total)
      && r.value.genreTotal == |AllGenres(artists)|
      && r.value.uniqueGenres == |Tally.Tally(AllGenres(artists))|
      && |r.value.audioAura| == 3 && |r.value.personality| <= 3
  {
    var total := Sum(Durations(tracks));
    SpotifyDb.HoursAreWholeHours(total);
    TallyTotal(AllGenres(artists));
    TallySize(AllGenres(artists));
    PersonalityShape(tracks, Tally.Tally(AllGenres(artists)));
  }
}
