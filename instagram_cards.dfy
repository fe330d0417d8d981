/**
 * The layout decisions of the portrait (1080 x 1350) share cards: the 2 x 2 stats grid of the
 * summary card, the five-row lists, the personality card's gradient and wrapped description,
 * and the set of story slides. Pixels, fonts and colour interpolation are not modelled.
 */
module InstagramCards {
  import opened Prelude
  import opened Text
  import opened Layout

  const Width: int := 1080

  // ---- Summary card: stats grid ----

  /** A stat value as read from the user data: an `int` or a string. */
  datatype StatValue = IntStat(i: int) | TextStat(s: string)

  /**
   * The drawn value: an integer as its decimal digits (after a '-' when negative), a string
   * upper-cased character by character, so no lower-case letter remains.
   */
  function ValueText(v: StatValue): (t: string)
    ensures v.IntStat? && v.i >= 0 ==> AllDigits(t) && DigitsValue(t) == v.i
    ensures v.IntStat? && v.i < 0 ==> |t| > 1 && t[0] == '-' && AllDigits(t[1..]) && DigitsValue(t[1..]) == -v.i
    ensures v.TextStat? ==> |t| == |v.s| && forall k :: 0 <= k < |t| ==> t[k] == UpperChar(v.s[k]) && !('a' <= t[k] <= 'z')
  {
    match v
    case IntStat(i) => IntToString(i)
    case TextStat(s) => Upper(s)
  }

  const BoxWidth: int := 400
  const BoxHeight: int := 150
  const StatColumns: seq<int> := [Width / 2 - 220, Width / 2 + 20]

  /**
   * One drawn stat box: its top-left corner, the value text with the point its top centre is
   * anchored at, and the label with its anchor.
   */
  datatype StatBox = StatBox(x: int, y: int, value: string, valueAt: (int, int), caption: string, captionAt: (int, int))

  /** The box at `(x, y)`: value centred 50 px and label centred 100 px below the box's top. */
  function BoxAt(x: int, y: int, value: string, caption: string): (b: StatBox)
    ensures b.x == x && b.y == y && b.value == value && b.caption == caption
    ensures b.valueAt == (x + 200, y + 50) && b.captionAt == (x + 200, y + 100)
  {
    StatBox(x, y, value, (x + BoxWidth / 2, y + 50), caption, (x + BoxWidth / 2, y + 100))
  }

  /** Both texts are anchored inside their box, the value above the label, on its centre line. */
  lemma BoxAtTextsInside(x: int, y: int, value: string, caption: string)
    ensures var b := BoxAt(x, y, value, caption);
      && b.x < b.valueAt.0 < b.x + BoxWidth && b.valueAt.0 == b.captionAt.0
      && b.y < b.valueAt.1 < b.captionAt.1 < b.y + BoxHeight
  {
  }

  /** The summary card's four stats: minutes, top genre, unique tracks, different artists. */
  function SummaryStats(totalMinutes: StatValue, topGenre: StatValue, uniqueTracks: StatValue,
                        uniqueArtists: StatValue): seq<(StatValue, string)>
  {
    [(totalMinutes, "MINUTES LISTENED"), (topGenre, "TOP GENRE"), (uniqueTracks, "UNIQUE TRACKS"),
     (uniqueArtists, "DIFFERENT ARTISTS")]
  }

  /**
   * The stats loop: stat `i` goes to column `i % 2` and row `i // 2`, rows 170 apart, its
   * value 50 px and its label 100 px below the box's top, both centred on the box.
   */
  method StatsGrid(stats: seq<(StatValue, string)>, yPosition: int) returns (boxes: seq<StatBox>)
    ensures |boxes| == |stats|
    ensures forall i :: 0 <= i < |stats| ==>
      var x, y := StatColumns[i % 2], yPosition + (i / 2) * 170;
      && boxes[i].x == x && boxes[i].y == y
      && boxes[i].value == ValueText(stats[i].0) && boxes[i].caption == stats[i].1
      && boxes[i].valueAt == (x + 200, y + 50) && boxes[i].captionAt == (x + 200, y + 100)
  {
    boxes := [];
    for i := 0 to |stats|
      invariant |boxes| == i
      invariant forall k :: 0 <= k < i ==>
        boxes[k] == BoxAt(StatColumns[k % 2], yPosition + (k / 2) * 170, ValueText(stats[k].0), stats[k].1)
    {
      var x := StatColumns[i % 2];
      var yBox := yPosition + (i / 2) * 170;
      boxes := boxes + [BoxAt(x, yBox, ValueText(stats[i].0), stats[i].1)];
    }
  }

  /**
   * The four stats fill the two columns and two rows once each; the rows are 20 px apart, but
   * the columns are only 240 px apart for 400 px wide boxes, so side-by-side boxes share 160 px.
   */
  lemma StatsGridCells(yPosition: int)
    ensures forall i, j :: 0 <= i < j < 4 ==> (StatColumns[i % 2], i / 2) != (StatColumns[j % 2], j / 2)
    ensures forall i :: 0 <= i < 4 ==> 0 <= i / 2 < 2
    ensures StatColumns[0] + BoxWidth - StatColumns[1] == 160
    ensures yPosition + BoxHeight < yPosition + 170
  {
  }

  // ---- Top-five cards ----

  /** One list entry as the card reads it; a missing field takes the card's default. */
  datatype Item = TrackItem(name: Option<string>, artist: Option<string>)
                | ArtistItem(artistName: Option<string>, genres: seq<string>)

  /** One drawn row: rank, baseline, title, and the optional second line. */
  datatype ListRow = ListRow(rank: nat, y: int, title: string, subtitle: Option<string>)

  /** The row of the item at rank `rank` drawn at `y`. */
  function RowOf(item: Item, rank: nat, y: int): (r: ListRow)
    ensures r.rank == rank && r.y == y && |r.title| <= 35
    ensures item.TrackItem? ==> r.subtitle.Some? && |r.subtitle.value| <= 3 + 30
  {
    match item
    case TrackItem(name, artist) =>
      ListRow(rank, y, Prefix(GetOr(name, "Unknown"), 35), Some("by " + Prefix(GetOr(artist, "Unknown"), 30)))
    case ArtistItem(name, genres) =>
      var g := Join(Prefix(genres, 2), ", ");
      ListRow(rank, y, Prefix(GetOr(name, "Unknown"), 35), if g != "" then Some(g) else None)
  }

  /** `create_top_5_card`'s loop: the first five items, ranked from 1, 140 px apart from y = 270. */
  method Top5Rows(items: seq<Item>) returns (rows: seq<ListRow>)
    ensures |rows| == Min(5, |items|)
    ensures forall i :: 0 <= i < |rows| ==> rows[i] == RowOf(items[i], i + 1, 270 + 140 * i)
  {
    var shown := Prefix(items, 5);
    rows := [];
    var y := 80 + 70 + 120;
    for i := 0 to |shown|
      invariant |rows| == i && y == 270 + 140 * i
      invariant forall k :: 0 <= k < i ==> rows[k] == RowOf(items[k], k + 1, 270 + 140 * k)
    {
      rows := rows + [RowOf(shown[i], i + 1, y)];
      y := y + 140;
    }
  }

  /**
   * What a reader of a row gets back: the title and a track's artist are the leading
   * characters of the name and the artist (the whole of them when short enough), after "by ";
   * an artist's line, when its first two genres are non-empty and hold no ", ", is drawn
   * exactly when it has genres and splits back on ", " into those genres.
   */
  lemma RowOfReadsBack(item: Item, rank: nat, y: int)
    ensures var r := RowOf(item, rank, y);
      var name := if item.TrackItem? then GetOr(item.name, "Unknown") else GetOr(item.artistName, "Unknown");
      && r.title == name[..|r.title|] && (|name| <= 35 ==> r.title == name)
      && (item.TrackItem? ==>
            var artist := GetOr(item.artist, "Unknown");
            var line := r.subtitle.value;
            |line| >= 3 && line[..3] == "by " && line[3..] == artist[..|line| - 3]
            && (|artist| <= 30 ==> line[3..] == artist))
      && (item.ArtistItem? && (forall i :: 0 <= i < |item.genres| && i < 2 ==>
                                 item.genres[i] != "" && !Contains(item.genres[i], ", ")) ==>
            (r.subtitle.Some? <==> item.genres != [])
            && (r.subtitle.Some? ==> Split(r.subtitle.value, ", ") == Prefix(item.genres, 2)))
  {
    var r := RowOf(item, rank, y);
    match item
    case TrackItem(_, artist) =>
      var line := r.subtitle.value;
      assert line[..3] == "by ";
      assert line[3..] == Prefix(GetOr(artist, "Unknown"), 30);
    case ArtistItem(_, genres) =>
      var shown := Prefix(genres, 2);
      if genres != [] && forall i :: 0 <= i < |genres| && i < 2 ==> genres[i] != "" && !Contains(genres[i], ", ") {
        assert shown[0] == genres[0];
        assert |Join(shown, ", ")| >= |shown[0]| > 0;
        SplitJoinComma(shown);
      }
  }

  // ---- Personality card ----

  datatype Gradient = Gradient(top: (int, int, int), bottom: (int, int, int))

  const PartyGradient: Gradient := Gradient((255, 107, 107), (255, 230, 109))
  const DeepGradient: Gradient := Gradient((70, 70, 150), (20, 20, 60))
  const ExplorerGradient: Gradient := Gradient((102, 126, 234), (118, 75, 162))
  const DefaultGradient: Gradient := Gradient((29, 185, 84), (25, 20, 20))

  /** The personality card's background: 'Party', then 'Deep', then 'Explorer', else the default. */
  function PersonalityGradient(kind: string): (g: Gradient)
    ensures Contains(kind, "Party") ==> g == PartyGradient
    ensures !Contains(kind, "Party") && Contains(kind, "Deep") ==> g == DeepGradient
    ensures !Contains(kind, "Party") && !Contains(kind, "Deep") && Contains(kind, "Explorer") ==> g == ExplorerGradient
    ensures !Contains(kind, "Party") && !Contains(kind, "Deep") && !Contains(kind, "Explorer") ==> g == DefaultGradient
  {
    if Contains(kind, "Party") then PartyGradient
    else if Contains(kind, "Deep") then DeepGradient
    else if Contains(kind, "Explorer") then ExplorerGradient
    else DefaultGradient
  }

  /**
   * The gradient is decided by the first keyword present, in the order Party, Deep, Explorer:
   * a type naming both a party and a deep mood gets the party colours.
   */
  lemma PersonalityGradientPriority()
    ensures PersonalityGradient("The Deep Party") == PartyGradient
    ensures PersonalityGradient("The Deep Thinker") == DeepGradient
    ensures PersonalityGradient("The Explorer") == ExplorerGradient
    ensures PersonalityGradient("") == DefaultGradient
  {
    ContainsAt("The Deep Party", "Party", 9);
    ContainsAt("The Deep Thinker", "Deep", 4);
    ContainsAt("The Explorer", "Explorer", 4);
    MissingFirstChar("The Deep Thinker", "Party");
    MissingFirstChar("The Explorer", "Party");
    MissingFirstChar("The Explorer", "Deep");
    MissingFirstChar("", "Party");
    MissingFirstChar("", "Deep");
    MissingFirstChar("", "Explorer");
  }

  /** The personality as read from the user data; a missing field takes the card's default. */
  datatype PersonalityData = PersonalityData(kind: Option<string>, description: Option<string>, emoji: Option<string>)

  datatype PersonalityCard = PersonalityCard(gradient: Gradient, emoji: string, title: string,
                                             lines: seq<(string, int)>, yEnd: int)

  /** The description's wrapped lines: greedy wrap at 30 characters. */
  function DescriptionLines(description: string): seq<string>
  {
    JoinLines(WrapGroups(SplitWords(description), 30))
  }

  /** `create_personality_card`: gradient, emoji, type, and at most three lines 50 px apart from y = 540. */
  method CreatePersonalityCard(p: PersonalityData) returns (card: PersonalityCard)
    ensures card.gradient == PersonalityGradient(GetOr(p.kind, ""))
    ensures card.title == GetOr(p.kind, "Music Lover")
    ensures card.emoji == GetOr(p.emoji, "\U{1F3B5}")
    ensures var lines := DescriptionLines(GetOr(p.description, ""));
      |card.lines| == Min(3, |lines|) && forall i :: 0 <= i < |card.lines| ==> card.lines[i] == (lines[i], 540 + 50 * i)
  {
    var gradient := PersonalityGradient(GetOr(p.kind, ""));
    var y := 100;
    y := y + 70;
    y := y + 120;
    var emoji := GetOr(p.emoji, "\U{1F3B5}");
    y := y + 150;
    var title := GetOr(p.kind, "Music Lover");
    y := y + 100;
    var desc := GetOr(p.description, "");
    var lines := WrapText(desc, 30);
    var placed, yEnd := PlaceLines(lines, y, 3, 50);
    card := PersonalityCard(gradient, emoji, title, placed, yEnd);
  }

  /**
   * The drawn description: at most three lines, each no wider than 30 characters unless it is
   * one long word, holding the description's first words in order; an empty first line is
   * drawn exactly when the first word alone is wider than 30.
   */
  lemma DescriptionLinesShape(description: string)
    ensures var groups := WrapGroups(SplitWords(description), 30);
      var drawn := Prefix(groups, 3);
      && |Prefix(DescriptionLines(description), 3)| <= 3
      && (forall i :: 0 <= i < |drawn| ==> Fits(drawn[i], 30))
      && Flatten(groups) == SplitWords(description)
      && (forall i :: 0 <= i < |groups| ==>
            (groups[i] == [] <==> i == 0 && |SplitWords(description)[0]| > 30))
  {
    WrapGroupsProperties(SplitWords(description), 30);
  }

  // ---- Story slides ----

  datatype Slide = SummarySlide | TopTracksSlide | TopArtistsSlide | PersonalitySlide

  /** `create_story_slides`: summary, tracks and artists, then the personality when there is one. */
  function StorySlides(hasPersonality: bool): (slides: seq<Slide>)
    ensures |slides| == if hasPersonality then 4 else 3
    ensures slides[..3] == [SummarySlide, TopTracksSlide, TopArtistsSlide]
    ensures PersonalitySlide in slides <==> hasPersonality
  {
    [SummarySlide, TopTracksSlide, TopArtistsSlide] + (if hasPersonality then [PersonalitySlide] else [])
  }
}
