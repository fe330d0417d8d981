/**
 * The layout decisions of the "official style" share cards: the gradient table and its
 * fallback, the two drawn stats of the summary card, the ten-row track and artist lists with
 * their rank labels and truncations, and the personality card's gradient and wrapped text.
 */
module OfficialCards {
  import opened Prelude
  import opened Text
  import opened Layout
  import InstagramCards

  const Width: int := 1080

  type Rgb = (int, int, int)

  /** `wrapped_gradients`. */
  const WrappedGradients: map<string, seq<Rgb>> := map[
    "main" := [(236, 64, 122), (168, 58, 180), (88, 81, 219)],
    "alt" := [(29, 185, 84), (24, 24, 24)],
    "warm" := [(255, 107, 107), (255, 230, 109)],
    "cool" := [(70, 130, 180), (106, 90, 205)],
    "dark" := [(25, 20, 20), (45, 40, 40)]
  ]

  /** The colour stops a gradient name selects: an unknown name falls back to 'main'. */
  function GradientColors(key: string): (colors: seq<Rgb>)
    ensures key in WrappedGradients ==> colors == WrappedGradients[key]
    ensures key !in WrappedGradients ==> colors == WrappedGradients["main"]
    ensures 2 <= |colors| <= 3
  {
    if key in WrappedGradients then WrappedGradients[key] else WrappedGradients["main"]
  }

  // ---- Summary card ----

  /** One drawn stat card: left edge, value text and upper-cased label. */
  datatype StatCard = StatCard(x: int, value: string, caption: string)

  const CardWidth: int := 280
  const StatColumns: seq<int> := [Width / 2 - CardWidth - 20, Width / 2 + 20]

  /** The summary's three stats: minutes with thousands separators, songs and artists. */
  function SummaryStats(totalMinutes: int, uniqueTracks: int, uniqueArtists: int): seq<(string, string)>
  {
    [(WithThousands(totalMinutes), "minutes"), (IntToString(uniqueTracks), "songs"),
     (IntToString(uniqueArtists), "artists")]
  }

  /** The stats loop: only `stats[:2]` is drawn, side by side. */
  method DrawSummaryStats(stats: seq<(string, string)>) returns (cards: seq<StatCard>)
    ensures |cards| == Min(2, |stats|)
    ensures forall i :: 0 <= i < |cards| ==> cards[i] == StatCard(StatColumns[i], stats[i].0, Upper(stats[i].1))
  {
    var shown := Prefix(stats, 2);
    cards := [];
    for i := 0 to |shown|
      invariant |cards| == i
      invariant forall k :: 0 <= k < i ==> cards[k] == StatCard(StatColumns[k], stats[k].0, Upper(stats[k].1))
    {
      cards := cards + [StatCard(StatColumns[i], shown[i].0, Upper(shown[i].1))];
    }
  }

  /**
   * Of the three summary stats the card shows minutes and songs only; the minutes text is
   * `str(total_minutes)` with commas inserted; the two cards do not overlap (a 40 px gap).
   */
  lemma SummaryShowsTwoStats(totalMinutes: int, uniqueTracks: int, uniqueArtists: int)
    ensures var stats := SummaryStats(totalMinutes, uniqueTracks, uniqueArtists);
      && Prefix(stats, 2) == [stats[0], stats[1]]
      && stats[2].1 !in [stats[0].1, stats[1].1]
      && RemoveCommas(stats[0].0) == IntToString(totalMinutes)
      && stats[1].0 == IntToString(uniqueTracks)
    ensures StatColumns[0] + CardWidth + 40 == StatColumns[1]
  {
    WithThousandsDigits(totalMinutes);
  }

  // ---- Top-ten cards ----

  /** One list entry as the card reads it; a missing field takes the card's default. */
  datatype Entry = TrackEntry(name: Option<string>, artist: Option<string>, image: Option<string>)
                 | ArtistEntry(artistName: Option<string>, genres: seq<string>, artistImage: Option<string>)

  /** One drawn row: rank label, top edge, title and optional second line. */
  datatype ListRow = ListRow(rankLabel: string, y: int, title: string, subtitle: Option<string>)

  /** `str(i) if i < 10 else "10"`. */
  function RankLabel(i: nat): string
  {
    if i < 10 then NatToString(i) else "10"
  }

  /** For every rank that is drawn (1..10) the label is just the rank. */
  lemma RankLabelIsRank(i: nat)
    requires 1 <= i <= 10
    ensures RankLabel(i) == NatToString(i)
  {
    assert NatToString(10) == NatToString(1) + [Digit(0)];
  }

  /** The row of one entry at rank `rank`: names cut to 28, an artist's first genre title-cased and cut to 25. */
  function RowOf(e: Entry, rank: nat, y: int): (r: ListRow)
    ensures r.rankLabel == RankLabel(rank) && r.y == y && |r.title| <= 28
    ensures r.subtitle.Some? ==> |r.subtitle.value| <= 25
    ensures var n := if e.TrackEntry? then GetOr(e.name, "Unknown") else GetOr(e.artistName, "Unknown");
      |r.title| == Min(28, |n|) && r.title == n[..|r.title|] && (|n| <= 28 ==> r.title == n)
    ensures e.TrackEntry? ==>
      var a := GetOr(e.artist, "Unknown");
      && r.subtitle.Some? && |r.subtitle.value| == Min(25, |a|)
      && r.subtitle.value == a[..|r.subtitle.value|] && (|a| <= 25 ==> r.subtitle.value == a)
  {
    match e
    case TrackEntry(name, artist, _) =>
      ListRow(RankLabel(rank), y, Prefix(GetOr(name, "Unknown"), 28),
              Some(Prefix(GetOr(artist, "Unknown"), 25)))
    case ArtistEntry(name, genres, _) =>
      var g := Join(Prefix(genres, 1), ", ");
      ListRow(RankLabel(rank), y, Prefix(GetOr(name, "Unknown"), 28),
              if g != "" then Some(Prefix(TitleCase(g), 25)) else None)
  }

  /** The list loop of both cards: the first ten entries, 95 px apart from y = 180. */
  method TopTenRows(entries: seq<Entry>) returns (rows: seq<ListRow>)
    ensures |rows| == Min(10, |entries|)
    ensures forall i :: 0 <= i < |rows| ==> rows[i] == RowOf(entries[i], i + 1, 180 + 95 * i)
  {
    var shown := Prefix(entries, 10);
    rows := [];
    var y := 50;
    y := y + 50;
    y := y + 80;
    for i := 0 to |shown|
      invariant |rows| == i && y == 180 + 95 * i
      invariant forall k :: 0 <= k < i ==> rows[k] == RowOf(entries[k], k + 1, 180 + 95 * k)
    {
      rows := rows + [RowOf(shown[i], i + 1, y)];
      y := y + 95;
    }
  }

  /**
   * Every drawn row is labelled with its own rank; an artist's second line shows exactly its
   * first genre (when it has a non-empty one), never a second.
   */
  lemma TopTenRowsShape(entries: seq<Entry>, i: nat)
    requires i < Min(10, |entries|)
    ensures var r := RowOf(entries[i], i + 1, 180 + 95 * i);
      && r.rankLabel == NatToString(i + 1)
      && (entries[i].ArtistEntry? ==>
            (r.subtitle.Some? <==> entries[i].genres != [] && entries[i].genres[0] != "")
            && (r.subtitle.Some? ==> r.subtitle.value == Prefix(TitleCase(entries[i].genres[0]), 25)))
  {
    RankLabelIsRank(i + 1);
    if entries[i].ArtistEntry? && entries[i].genres != [] {
      assert Prefix(entries[i].genres, 1) == [entries[i].genres[0]];
    }
  }

  // ---- Personality card ----

  /** The gradient name: 'warm' for a party type, 'cool' for a deep or thinking one, else 'main'. */
  function PersonalityGradientKey(kind: string): (key: string)
    ensures key in WrappedGradients
    ensures key == "warm" <==> Contains(kind, "Party")
    ensures key == "cool" <==> !Contains(kind, "Party") && (Contains(kind, "Deep") || Contains(kind, "Thinker"))
  {
    if Contains(kind, "Party") then "warm"
    else if Contains(kind, "Deep") || Contains(kind, "Thinker") then "cool"
    else "main"
  }

  datatype PersonalityCard = PersonalityCard(colors: seq<Rgb>, title: string, lines: seq<(string, int)>, yEnd: int)

  /** The description's wrapped lines: greedy wrap at 35 characters. */
  function DescriptionLines(description: string): seq<string>
  {
    JoinLines(WrapGroups(SplitWords(description), 35))
  }

  const DefaultDescription: string := "You have a unique taste in music."

  /** `create_official_listening_personality`: gradient, upper-cased type, up to four lines 40 px apart from y = 420. */
  method CreateListeningPersonality(p: InstagramCards.PersonalityData) returns (card: PersonalityCard)
    ensures card.colors == GradientColors(PersonalityGradientKey(GetOr(p.kind, "")))
    ensures card.title == Upper(GetOr(p.kind, "Music Explorer"))
    ensures var lines := DescriptionLines(GetOr(p.description, DefaultDescription));
      |card.lines| == Min(4, |lines|) && forall i :: 0 <= i < |card.lines| ==> card.lines[i] == (lines[i], 420 + 40 * i)
  {
    var key := PersonalityGradientKey(GetOr(p.kind, ""));
    var colors := GradientColors(key);
    var y := 60;
    y := y + 80;
    y := y + 60;
    y := y + 120;
    var title := Upper(GetOr(p.kind, "Music Explorer"));
    y := y + 100;
    var desc := GetOr(p.description, DefaultDescription);
    var lines := WrapText(desc, 35);
    var placed, yEnd := PlaceLines(lines, y, 4, 40);
    card := PersonalityCard(colors, title, placed, yEnd);
  }

  /**
   * The drawn description: at most four lines, each no wider than 35 characters unless it is
   * one long word, and together the lines hold the description's words in order.
   */
  lemma DescriptionLinesShape(description: string)
    ensures var groups := WrapGroups(SplitWords(description), 35);
      && |Prefix(DescriptionLines(description), 4)| <= 4
      && (forall i :: 0 <= i < |groups| ==> Fits(groups[i], 35))
      && Flatten(groups) == SplitWords(description)
  {
    WrapGroupsProperties(SplitWords(description), 35);
  }

}
