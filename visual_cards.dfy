/**
 * The visual card generator: the grid that combines the cards into one picture, where the
 * statistics card puts its six boxes, the genre counting and the statistics the card route
 * prepares, and which cards get saved. Drawing itself is not modelled: a card is its size.
 */
module VisualCards {
  import opened Prelude
  import opened Text
  import Tally

  /** The pixel size of an image. */
  datatype Size = Size(width: nat, height: nat)

  /** `max(img.width for img in images)`, and likewise for any non-empty list of sizes. */
  function MaxOf(xs: seq<nat>): (m: nat)
    requires |xs| > 0
    ensures m in xs
    ensures forall i :: 0 <= i < |xs| ==> xs[i] <= m
  {
    if |xs| == 1 then xs[0]
    else
      var rest := MaxOf(xs[1..]);
      assert forall i :: 1 <= i < |xs| ==> xs[i] == xs[1..][i - 1];
      if xs[0] >= rest then xs[0] else rest
  }

  function Widths(images: seq<Size>): (ws: seq<nat>)
    ensures |ws| == |images| && forall i :: 0 <= i < |images| ==> ws[i] == images[i].width
  {
    seq(|images|, i requires 0 <= i < |images| => images[i].width)
  }

  function Heights(images: seq<Size>): (hs: seq<nat>)
    ensures |hs| == |images| && forall i :: 0 <= i < |images| ==> hs[i] == images[i].height
  {
    seq(|images|, i requires 0 <= i < |images| => images[i].height)
  }

  /** The combined picture: its size, the size of one grid cell, and where each image was pasted. */
  datatype Canvas = Canvas(width: nat, height: nat, cellWidth: nat, cellHeight: nat, offsets: seq<(nat, nat)>)

  const Columns: nat := 2

  /** `(n + 1) // 2`: enough rows of two for `n` images. */
  function Rows(n: nat): (rows: nat)
    ensures Columns * rows >= n && Columns * (rows - 1) < n
  {
    (n + 1) / 2
  }

  lemma {:induction false} MulStep(a: nat, b: nat, h: nat)
    requires a < b
    ensures a * h + h <= b * h
    decreases b - a
  {
    assert (a + 1) * h == a * h + h;
    if a + 1 < b {
      MulStep(a + 1, b, h);
    }
  }

  /** Where image `i` is pasted on a grid of `w` by `h` cells: column `i % 2`, row `i // 2`. */
  function Offset(i: nat, w: nat, h: nat): (nat, nat)
  {
    ((i % 2) * w, (i / 2) * h)
  }

  /** An image no larger than a cell, pasted at its cell, lies inside a canvas of `n` images. */
  lemma {:induction false} OffsetInside(i: nat, n: nat, w: nat, h: nat, iw: nat, ih: nat)
    requires i < n && iw <= w && ih <= h
    ensures Offset(i, w, h).0 + iw <= w * Columns
    ensures Offset(i, w, h).1 + ih <= h * Rows(n)
  {
    MulStep(i / 2, Rows(n), h);
  }

  /** The cells of two different images do not overlap. */
  lemma {:induction false} OffsetsApart(i: nat, j: nat, w: nat, h: nat)
    requires i < j
    ensures var (p, q) := (Offset(i, w, h), Offset(j, w, h));
      p.0 + w <= q.0 || q.0 + w <= p.0 || p.1 + h <= q.1 || q.1 + h <= p.1
  {
    if i % 2 == j % 2 {
      MulStep(i / 2, j / 2, h);
    } else if i % 2 == 0 {
      assert Offset(i, w, h).0 == 0 && Offset(j, w, h).0 == w;
    } else {
      assert Offset(i, w, h).0 == w && Offset(j, w, h).0 == 0;
    }
  }

  /** Every image, pasted at its cell of a grid sized to the largest image, lies inside the canvas. */
  lemma GridInside(images: seq<Size>, offsets: seq<(nat, nat)>, w: nat, h: nat)
    requires images != [] && w == MaxOf(Widths(images)) && h == MaxOf(Heights(images))
    requires |offsets| == |images| && forall k :: 0 <= k < |offsets| ==> offsets[k] == Offset(k, w, h)
    ensures forall i :: 0 <= i < |images| ==>
      offsets[i].0 + images[i].width <= w * Columns && offsets[i].1 + images[i].height <= h * Rows(|images|)
  {
    forall i | 0 <= i < |images|
      ensures offsets[i].0 + images[i].width <= w * Columns
      ensures offsets[i].1 + images[i].height <= h * Rows(|images|)
    {
      assert Widths(images)[i] == images[i].width && Heights(images)[i] == images[i].height;
      OffsetInside(i, |images|, w, h, images[i].width, images[i].height);
    }
  }

  /** The cells of any two different images of the grid do not overlap. */
  lemma GridApart(offsets: seq<(nat, nat)>, w: nat, h: nat)
    requires forall k :: 0 <= k < |offsets| ==> offsets[k] == Offset(k, w, h)
    ensures forall i, j :: 0 <= i < j < |offsets| ==>
      offsets[i].0 + w <= offsets[j].0 || offsets[j].0 + w <= offsets[i].0 ||
      offsets[i].1 + h <= offsets[j].1 || offsets[j].1 + h <= offsets[i].1
  {
    forall i, j | 0 <= i < j < |offsets|
      ensures offsets[i].0 + w <= offsets[j].0 || offsets[j].0 + w <= offsets[i].0 ||
              offsets[i].1 + h <= offsets[j].1 || offsets[j].1 + h <= offsets[i].1
    {
      OffsetsApart(i, j, w, h);
    }
  }

  /**
   * `combine_images_grid`: nothing for no images; otherwise a canvas two cells wide and
   * enough rows high, cells as large as the largest image, image `i` pasted in column `i % 2`
   * of row `i // 2`. Every pasted image lies inside the canvas and the cells of two different
   * images do not overlap.
   */
  method CombineImagesGrid(images: seq<Size>) returns (r: Option<Canvas>)
    ensures r.None? <==> images == []
    ensures r.Some? ==>
      && r.value.cellWidth == MaxOf(Widths(images))
      && r.value.cellHeight == MaxOf(Heights(images))
      && r.value.width == r.value.cellWidth * Columns
      && r.value.height == r.value.cellHeight * Rows(|images|)
      && |r.value.offsets| == |images|
      && (forall i :: 0 <= i < |images| ==> r.value.offsets[i] == Offset(i, r.value.cellWidth, r.value.cellHeight))
    ensures r.Some? ==> forall i :: 0 <= i < |images| ==>
      r.value.offsets[i].0 + images[i].width <= r.value.width &&
      r.value.offsets[i].1 + images[i].height <= r.value.height
    ensures r.Some? ==> forall i, j :: 0 <= i < j < |images| ==>
      var (p, q) := (r.value.offsets[i], r.value.offsets[j]);
      p.0 + r.value.cellWidth <= q.0 || q.0 + r.value.cellWidth <= p.0 ||
      p.1 + r.value.cellHeight <= q.1 || q.1 + r.value.cellHeight <= p.1
  {
    if images == [] {
      return None;
    }
    var n := |images|;
    var rows := Rows(n);
    var maxWidth := MaxOf(Widths(images));
    var maxHeight := MaxOf(Heights(images));
    var offsets: seq<(nat, nat)> := [];
    for i := 0 to n
      invariant |offsets| == i
      invariant forall k :: 0 <= k < i ==> offsets[k] == Offset(k, maxWidth, maxHeight)
    {
      offsets := offsets + [Offset(i, maxWidth, maxHeight)];
    }
    GridInside(images, offsets, maxWidth, maxHeight);
    GridApart(offsets, maxWidth, maxHeight);
    r := Some(Canvas(maxWidth * Columns, maxHeight * rows, maxWidth, maxHeight, offsets));
  }

  // ---------------------------------------------------------------------------------------
  // The statistics card

  /** The statistics dictionary the card reads; a missing key is `None`. */
  datatype Stats = Stats(
    totalMinutes: Option<int>, totalTracks: Option<int>, totalArtists: Option<int>,
    topGenre: Option<string>, avgPopularity: Option<real>, discoveryScore: Option<string>)

  /** A dictionary is truthy when it holds at least one key. */
  predicate StatsPresent(s: Option<Stats>)
  {
    s.Some? && (s.value.totalMinutes.Some? || s.value.totalTracks.Some? || s.value.totalArtists.Some? ||
                s.value.topGenre.Some? || s.value.avgPopularity.Some? || s.value.discoveryScore.Some?)
  }

  /**
   * `f"{x:.0f}"` on a value held exactly: the nearest integer, a tie going to the even one
   * (the rounding of the float formatting).
   */
  function RoundHalfEven(x: real): (n: int)
    ensures n as real - 0.5 <= x <= n as real + 0.5
    ensures x - x.Floor as real == 0.5 ==> n % 2 == 0
  {
    var f := x.Floor;
    var d := x - f as real;
    if d < 0.5 then f else if d > 0.5 then f + 1 else if f % 2 == 0 then f else f + 1
  }

  /** The captions of the six stats, in the order the card lists them. */
  const StatCaptions: seq<string> := ["Minutes Listened", "Unique Tracks", "Different Artists", "Top Genre",
                                      "Avg Track Popularity", "Discovery Level"]

  /** The six (value, caption) pairs of the card, with the card's defaults for missing keys. */
  function StatsData(s: Stats): (d: seq<(string, string)>)
    ensures |d| == 6
    ensures forall i :: 0 <= i < 6 ==> d[i].1 == StatCaptions[i]
    ensures d[0].0 == IntToString(GetOr(s.totalMinutes, 0)) && (s.totalMinutes.None? ==> d[0].0 == "0")
    ensures d[1].0 == IntToString(GetOr(s.totalTracks, 0)) && (s.totalTracks.None? ==> d[1].0 == "0")
    ensures d[2].0 == IntToString(GetOr(s.totalArtists, 0)) && (s.totalArtists.None? ==> d[2].0 == "0")
    ensures d[3].0 == GetOr(s.topGenre, "Unknown")
    ensures |d[4].0| > 1 && d[4].0[|d[4].0| - 1] == '%' && d[4].0[..|d[4].0| - 1] == IntToString(RoundHalfEven(GetOr(s.avgPopularity, 0.0)))
    ensures s.avgPopularity.None? ==> d[4].0 == "0%"
    ensures d[5].0 == GetOr(s.discoveryScore, "High")
  {
    ZeroTexts();
    [ (IntToString(GetOr(s.totalMinutes, 0)), "Minutes Listened"),
      (IntToString(GetOr(s.totalTracks, 0)), "Unique Tracks"),
      (IntToString(GetOr(s.totalArtists, 0)), "Different Artists"),
      (GetOr(s.topGenre, "Unknown"), "Top Genre"),
      (PercentText(GetOr(s.avgPopularity, 0.0)), "Avg Track Popularity"),
      (GetOr(s.discoveryScore, "High"), "Discovery Level") ]
  }

  /** `f"{x:.0f}%"`: the rounded value's digits and a percent sign. */
  function PercentText(x: real): (t: string)
    ensures |t| > 1 && t[|t| - 1] == '%' && t[..|t| - 1] == IntToString(RoundHalfEven(x))
  {
    var digits := IntToString(RoundHalfEven(x));
    assert (digits + "%")[..|digits|] == digits;
    digits + "%"
  }

  /** The texts of a missing number: 0 prints as "0", and 0.0 rounds to 0. */
  lemma ZeroTexts()
    ensures IntToString(0) == "0" && RoundHalfEven(0.0) == 0 && PercentText(0.0) == "0%"
  {
    assert IntToString(0) == "0";
    assert PercentText(0.0) == IntToString(0) + "%";
  }

  const CardWidth: nat := 1080
  const CardHeight: nat := 1350
  const StatBoxWidth: nat := 280
  const StatBoxHeight: nat := 180

  /** An axis-aligned rectangle by its corners. */
  datatype Rect = Rect(left: int, top: int, right: int, bottom: int)

  predicate Disjoint(a: Rect, b: Rect)
  {
    a.right < b.left || b.right < a.left || a.bottom < b.top || b.bottom < a.top
  }

  predicate Inside(a: Rect, width: nat, height: nat)
  {
    0 <= a.left <= a.right <= width && 0 <= a.top <= a.bottom <= height
  }

  /** One drawn statistic: its centre, its rounded box, and where its value and caption go. */
  datatype StatBox = StatBox(x: int, y: int, box: Rect, valueAt: (int, int), value: string,
                             captionAt: (int, int), caption: string)

  /** Statistic `i`'s centre: column `i % 2` of `[width // 3, 2 * width // 3]`, row `i // 2` of `[400, 650, 900]`. */
  function StatCentre(i: nat): (int, int)
    requires i < 6
  {
    ([CardWidth / 3, 2 * CardWidth / 3][i % 2], [400, 650, 900][i / 2])
  }

  /** The 280 by 180 box centred on `(x, y)`. */
  function BoxAround(x: int, y: int): Rect
  {
    var left := x - StatBoxWidth / 2;
    var top := y - StatBoxHeight / 2;
    Rect(left, top, left + StatBoxWidth, top + StatBoxHeight)
  }

  /** Statistic `i` as drawn: the box, the value 20 px above the centre, the caption 40 px below. */
  function PlaceStat(i: nat, stat: (string, string)): StatBox
    requires i < 6
  {
    var (x, y) := StatCentre(i);
    StatBox(x, y, BoxAround(x, y), (x, y - 20), stat.0, (x, y + 40), stat.1)
  }

  /** The six centres, read off the two position lists. */
  const StatCentres: seq<(int, int)> := [(360, 400), (720, 400), (360, 650), (720, 650), (360, 900), (720, 900)]

  lemma StatCentreIs(i: nat)
    requires i < 6
    ensures StatCentre(i) == StatCentres[i]
  {
    if i == 0 {} else if i == 1 {} else if i == 2 {} else if i == 3 {} else if i == 4 {} else {}
  }

  /**
   * The six statistics take each of the three rows' two places, the place in column `c` of
   * row `r` going to statistic `2r + c`; so no two share a place.
   */
  lemma StatCentresFillGrid(c: nat, row: nat)
    requires c < 2 && row < 3
    ensures StatCentre(2 * row + c) == ([CardWidth / 3, 2 * CardWidth / 3][c], [400, 650, 900][row])
    ensures forall i :: 0 <= i < 6 && i != 2 * row + c ==> StatCentre(i) != StatCentre(2 * row + c)
  {
    StatCentreIs(2 * row + c);
    forall i | 0 <= i < 6 && i != 2 * row + c
      ensures StatCentre(i) != StatCentre(2 * row + c)
    {
      StatCentreIs(i);
    }
  }

  /** Two of the six boxes do not touch, and each lies on the 1080 by 1350 card. */
  lemma StatBoxesApart(i: nat, j: nat)
    requires i < j < 6
    ensures Disjoint(BoxAround(StatCentre(i).0, StatCentre(i).1), BoxAround(StatCentre(j).0, StatCentre(j).1))
    ensures Inside(BoxAround(StatCentre(i).0, StatCentre(i).1), CardWidth, CardHeight)
    ensures Inside(BoxAround(StatCentre(j).0, StatCentre(j).1), CardWidth, CardHeight)
  {
    StatCentreIs(i);
    StatCentreIs(j);
  }

  /** Statistic `i` goes to the place the card's two position lists give it. */
  lemma PlacedAt(i: nat, stat: (string, string), x: int, y: int)
    requires i < 6 && x == [CardWidth / 3, 2 * CardWidth / 3][i % 2] && y == [400, 650, 900][i / 2]
    ensures PlaceStat(i, stat) == StatBox(x, y, Rect(x - StatBoxWidth / 2, y - StatBoxHeight / 2,
                                                     x - StatBoxWidth / 2 + StatBoxWidth, y - StatBoxHeight / 2 + StatBoxHeight),
                                          (x, y - 20), stat.0, (x, y + 40), stat.1)
  {
  }

  /** The loop of `create_stats_card`: statistic `i` of the card's six placed at its grid place. */
  method CreateStatsCard(s: Stats) returns (boxes: seq<StatBox>)
    ensures |boxes| == 6
    ensures forall i :: 0 <= i < 6 ==> boxes[i] == PlaceStat(i, StatsData(s)[i])
    ensures forall i, j :: 0 <= i < j < 6 ==> Disjoint(boxes[i].box, boxes[j].box)
    ensures forall i :: 0 <= i < 6 ==> Inside(boxes[i].box, CardWidth, CardHeight)
  {
    var data := StatsData(s);
    var xPositions := [CardWidth / 3, 2 * CardWidth / 3];
    var yPositions := [400, 650, 900];
    boxes := [];
    for i := 0 to 6
      invariant |boxes| == i
      invariant forall k :: 0 <= k < i ==> boxes[k] == PlaceStat(k, data[k])
    {
      var x := xPositions[i % 2];
      var y := yPositions[i / 2];
      var boxX := x - StatBoxWidth / 2;
      var boxY := y - StatBoxHeight / 2;
      PlacedAt(i, data[i], x, y);
      boxes := boxes + [StatBox(x, y, Rect(boxX, boxY, boxX + StatBoxWidth, boxY + StatBoxHeight),
                                (x, y - 20), data[i].0, (x, y + 40), data[i].1)];
    }
    forall i, j | 0 <= i < j < 6
      ensures Disjoint(boxes[i].box, boxes[j].box)
      ensures Inside(boxes[i].box, CardWidth, CardHeight) && Inside(boxes[j].box, CardWidth, CardHeight)
    {
      StatBoxesApart(i, j);
    }
  }

  // ---------------------------------------------------------------------------------------
  // The card route's statistics

  /** A stored artist and a stored track, as far as the route reads them. */
  datatype StoredArtist = StoredArtist(genres: Option<seq<string>>)
  datatype StoredTrack = StoredTrack(durationMs: Option<int>, popularity: Option<int>)

  /** Each artist's genre list (`artist.get('genres', [])`). */
  function ArtistGenres(artists: seq<StoredArtist>): (gs: seq<seq<string>>)
    ensures |gs| == |artists| && forall i :: 0 <= i < |artists| ==> gs[i] == GetOr(artists[i].genres, [])
  {
    seq(|artists|, i requires 0 <= i < |artists| => GetOr(artists[i].genres, []))
  }

  lemma TallySnoc(xs: seq<string>, x: string)
    ensures Tally.Tally(xs + [x]) == Tally.Bump(Tally.Tally(xs), x)
  {
    assert (xs + [x])[..|xs|] == xs;
  }

  /** Counting one more genre of the current artist bumps that genre's count. */
  lemma TallyExtend(before: seq<string>, genres: seq<string>, j: nat)
    requires j < |genres|
    ensures Tally.Tally(before + genres[..j + 1]) == Tally.Bump(Tally.Tally(before + genres[..j]), genres[j])
  {
    assert before + genres[..j + 1] == (before + genres[..j]) + [genres[j]];
    TallySnoc(before + genres[..j], genres[j]);
  }

  lemma FlattenSnoc(gs: seq<seq<string>>, i: nat)
    requires i < |gs|
    ensures Flatten(gs[..i + 1]) == Flatten(gs[..i]) + gs[i]
  {
    assert gs[..i + 1] == gs[..i] + [gs[i]];
    FlattenAppend(gs[..i], [gs[i]]);
    FlattenSingle(gs[i]);
  }

  /**
   * The nested loop `genre_stats[genre] = genre_stats.get(genre, 0) + 1`: the counter of all
   * the artists' genres, in first-occurrence order, each genre counted once per time it appears.
   */
  method GenreStats(artists: seq<StoredArtist>) returns (counts: Tally.Counts)
    ensures counts == Tally.Tally(Flatten(ArtistGenres(artists)))
    ensures Tally.DistinctKeys(counts) && Tally.PositiveCounts(counts)
    ensures forall g :: Tally.CountOf(counts, g) == Tally.Occurrences(Flatten(ArtistGenres(artists)), g)
    ensures forall g :: Tally.HasKey(counts, g) <==> g in Flatten(ArtistGenres(artists))
  {
    var lists := ArtistGenres(artists);
    counts := [];
    for i := 0 to |artists|
      invariant counts == Tally.Tally(Flatten(lists[..i]))
    {
      var genres := GetOr(artists[i].genres, []);
      ghost var before := Flatten(lists[..i]);
      assert before + genres[..0] == before;
      for j := 0 to |genres|
        invariant counts == Tally.Tally(before + genres[..j])
      {
        TallyExtend(before, genres, j);
        counts := Tally.Bump(counts, genres[j]);
      }
      assert genres[..|genres|] == genres;
      FlattenSnoc(lists, i);
    }
    assert lists[..|artists|] == lists;
  }

  /** `max(genre_stats.keys(), key=genre_stats.get) if genre_stats else 'Unknown'`. */
  function TopGenre(counts: Tally.Counts): (g: string)
    ensures counts == [] ==> g == "Unknown"
    ensures counts != [] ==> Tally.HasKey(counts, g)
    ensures counts != [] && Tally.DistinctKeys(counts) ==>
      forall i :: 0 <= i < |counts| ==> counts[i].1 <= Tally.CountOf(counts, g)
    ensures counts != [] && Tally.DistinctKeys(counts) ==>
      forall i, j :: 0 <= j < i < |counts| && counts[i].0 == g ==> counts[j].1 < counts[i].1
  {
    if counts == [] then "Unknown" else Tally.MaxKey(counts)
  }

  function DurationsOf(tracks: seq<StoredTrack>): (ds: seq<int>)
    ensures |ds| == |tracks| && forall i :: 0 <= i < |tracks| ==> ds[i] == GetOr(tracks[i].durationMs, 0)
  {
    seq(|tracks|, i requires 0 <= i < |tracks| => GetOr(tracks[i].durationMs, 0))
  }

  function PopularitiesOf(tracks: seq<StoredTrack>): (ps: seq<int>)
    ensures |ps| == |tracks| && forall i :: 0 <= i < |tracks| ==> ps[i] == GetOr(tracks[i].popularity, 0)
  {
    seq(|tracks|, i requires 0 <= i < |tracks| => GetOr(tracks[i].popularity, 0))
  }

  /** `sum(duration_ms) // 60000`: the whole minutes of the summed durations, rounded down. */
  function TotalMinutes(tracks: seq<StoredTrack>): (m: int)
    ensures 60000 * m <= Sum(DurationsOf(tracks)) < 60000 * (m + 1)
  {
    Sum(DurationsOf(tracks)) / 60000
  }

  /** The mean popularity, or 0 without tracks. */
  function AveragePopularity(tracks: seq<StoredTrack>): (avg: real)
    ensures tracks == [] ==> avg == 0.0
    ensures tracks != [] ==> avg * |tracks| as real == Sum(PopularitiesOf(tracks)) as real
  {
    if tracks == [] then 0.0 else Sum(PopularitiesOf(tracks)) as real / |tracks| as real
  }

  /** What the route hands to the card generator. */
  datatype UserData = UserData(userName: string, topArtists: seq<StoredArtist>, genreStats: Tally.Counts,
                               stats: Option<Stats>, evolution: bool)

  // ---------------------------------------------------------------------------------------
  // Saving the cards

  datatype CardKind = TopArtistsCard | GenresCard | StatsCard | TimelineCard

  /** A saved card: which one, the file it was written to, and the size of its picture. */
  datatype Card = Card(kind: CardKind, path: string, size: Size)

  /** The sizes of the cards drawn with the image library (`width, height = 1080, 1350`). */
  const ArtistCardSize: Size := Size(1080, 1350)
  const StatsCardSize: Size := Size(1080, 1350)

  function CardSizes(cards: seq<Card>): (sizes: seq<Size>)
    ensures |sizes| == |cards| && forall i :: 0 <= i < |cards| ==> sizes[i] == cards[i].size
  {
    seq(|cards|, i requires 0 <= i < |cards| => cards[i].size)
  }

  /** The card kinds, in the order `save_all_cards` considers them, whose input key is truthy. */
  function WantedCards(data: UserData): (kinds: seq<CardKind>)
  {
    (if data.topArtists != [] then [TopArtistsCard] else []) +
    (if data.genreStats != [] then [GenresCard] else []) +
    (if StatsPresent(data.stats) then [StatsCard] else []) +
    (if data.evolution then [TimelineCard] else [])
  }

  /** A card is made exactly when its input key is truthy, and none is made twice. */
  lemma WantedCardsPresent(data: UserData)
    ensures TopArtistsCard in WantedCards(data) <==> data.topArtists != []
    ensures GenresCard in WantedCards(data) <==> data.genreStats != []
    ensures StatsCard in WantedCards(data) <==> StatsPresent(data.stats)
    ensures TimelineCard in WantedCards(data) <==> data.evolution
    ensures forall i, j :: 0 <= i < j < |WantedCards(data)| ==> WantedCards(data)[i] != WantedCards(data)[j]
  {
    var w := WantedCards(data);
    forall i, j | 0 <= i < j < |w| ensures w[i] != w[j] {
      WantedCardsOrdered(data, i, j);
    }
  }

  /** Where a card comes in the order `save_all_cards` makes them. */
  function CardRank(k: CardKind): nat
  {
    match k
    case TopArtistsCard => 0
    case GenresCard => 1
    case StatsCard => 2
    case TimelineCard => 3
  }

  /** The wanted cards come in strictly increasing rank. */
  lemma WantedCardsOrdered(data: UserData, i: nat, j: nat)
    requires i < j < |WantedCards(data)|
    ensures CardRank(WantedCards(data)[i]) < CardRank(WantedCards(data)[j])
  {
    var a := if data.topArtists != [] then [TopArtistsCard] else [];
    var g := if data.genreStats != [] then [GenresCard] else [];
    var st := if StatsPresent(data.stats) then [StatsCard] else [];
    var t := if data.evolution then [TimelineCard] else [];
    var w := WantedCards(data);
    assert w == a + g + st + t;
    assert forall k :: 0 <= k < |w| ==>
      CardRank(w[k]) == if k < |a| then 0 else if k < |a| + |g| then 1 else if k < |a| + |g| + |st| then 2 else 3;
  }

  /**
   * `save_all_cards`: one card per truthy input key, in the order artists, genres, statistics,
   * timeline, each saved under its own file name; the combined grid of those cards only when
   * there is at least one. The sizes of the two charts drawn by the plotting library are
   * parameters.
   */
  method SaveAllCards(data: UserData, outputDir: string, pieSize: Size, timelineSize: Size)
    returns (cards: seq<Card>, combined: Option<Canvas>, combinedPath: Option<string>, message: string)
    ensures cards == CardsFor(WantedCards(data), outputDir, pieSize, timelineSize)
    ensures combined.Some? <==> cards != []
    ensures combinedPath.Some? <==> cards != []
    ensures combinedPath.Some? ==> combinedPath.value == outputDir + "/all_cards.png"
    ensures combined.Some? ==> |combined.value.offsets| == |cards|
    ensures message == "Cards saved to " + outputDir + "/"
  {
    cards := MakeCards(data, outputDir, pieSize, timelineSize);
    combined := None;
    combinedPath := None;
    if cards != [] {
      combined := CombineImagesGrid(CardSizes(cards));
      combinedPath := Some(outputDir + "/all_cards.png");
    }
    message := "Cards saved to " + outputDir + "/";
  }

  /** The four `if` blocks of `save_all_cards`: the wanted cards, made in order. */
  method MakeCards(data: UserData, outputDir: string, pieSize: Size, timelineSize: Size) returns (cards: seq<Card>)
    ensures cards == CardsFor(WantedCards(data), outputDir, pieSize, timelineSize)
  {
    ghost var kinds: seq<CardKind> := [];
    cards := [];
    if data.topArtists != [] {
      CardsForSnoc(kinds, TopArtistsCard, outputDir, pieSize, timelineSize);
      cards := cards + [CardFor(TopArtistsCard, outputDir, pieSize, timelineSize)];
      kinds := kinds + [TopArtistsCard];
    }
    assert cards == CardsFor(kinds, outputDir, pieSize, timelineSize);
    if data.genreStats != [] {
      CardsForSnoc(kinds, GenresCard, outputDir, pieSize, timelineSize);
      cards := cards + [CardFor(GenresCard, outputDir, pieSize, timelineSize)];
      kinds := kinds + [GenresCard];
    }
    assert cards == CardsFor(kinds, outputDir, pieSize, timelineSize);
    if StatsPresent(data.stats) {
      CardsForSnoc(kinds, StatsCard, outputDir, pieSize, timelineSize);
      cards := cards + [CardFor(StatsCard, outputDir, pieSize, timelineSize)];
      kinds := kinds + [StatsCard];
    }
    assert cards == CardsFor(kinds, outputDir, pieSize, timelineSize);
    if data.evolution {
      CardsForSnoc(kinds, TimelineCard, outputDir, pieSize, timelineSize);
      cards := cards + [CardFor(TimelineCard, outputDir, pieSize, timelineSize)];
      kinds := kinds + [TimelineCard];
    }
    assert kinds == WantedCards(data);
  }

  /** The cards of the given kinds, in that order. */
  function CardsFor(kinds: seq<CardKind>, outputDir: string, pieSize: Size, timelineSize: Size): (cards: seq<Card>)
    ensures |cards| == |kinds|
    ensures forall i :: 0 <= i < |kinds| ==> cards[i] == CardFor(kinds[i], outputDir, pieSize, timelineSize)
  {
    seq(|kinds|, i requires 0 <= i < |kinds| => CardFor(kinds[i], outputDir, pieSize, timelineSize))
  }

  lemma CardsForSnoc(kinds: seq<CardKind>, k: CardKind, outputDir: string, pieSize: Size, timelineSize: Size)
    ensures CardsFor(kinds + [k], outputDir, pieSize, timelineSize) ==
            CardsFor(kinds, outputDir, pieSize, timelineSize) + [CardFor(k, outputDir, pieSize, timelineSize)]
  {
  }

  /** The card of a kind: saved as `<output_dir>/<name>.png`, with the size of its picture. */
  function CardFor(kind: CardKind, outputDir: string, pieSize: Size, timelineSize: Size): (c: Card)
    ensures c.kind == kind
  {
    Card(kind, outputDir + "/" + FileName(kind), CardSize(kind, pieSize, timelineSize))
  }

  function FileName(kind: CardKind): string
  {
    match kind
    case TopArtistsCard => "top_artists.png"
    case GenresCard => "genres.png"
    case StatsCard => "stats.png"
    case TimelineCard => "timeline.png"
  }

  function CardSize(kind: CardKind, pieSize: Size, timelineSize: Size): Size
  {
    match kind
    case TopArtistsCard => ArtistCardSize
    case GenresCard => pieSize
    case StatsCard => StatsCardSize
    case TimelineCard => timelineSize
  }

  // ---------------------------------------------------------------------------------------
  // The route

  datatype Response = Unauthorized | Generated(data: UserData, message: string)

  /**
   * The card route: refused without a session; otherwise the display name, the first ten
   * artists, the genre counter and the statistics (no discovery level, so the card shows its
   * default), and the generator's message. `displayName` is the profile's `display_name`
   * field: `None` when the key is absent, which gives 'Your', and `Some(None)` when it holds
   * null, which `.get` returns as is and the card titles print as "None".
   */
  method GenerateVisualCards(authenticated: bool, displayName: Option<Option<string>>,
                             topArtists: seq<StoredArtist>, topTracks: seq<StoredTrack>,
                             pieSize: Size, timelineSize: Size)
    returns (r: Response)
    ensures r.Unauthorized? <==> !authenticated
    ensures r.Generated? ==>
      && (displayName.None? ==> r.data.userName == "Your")
      && (displayName == Some(None) ==> r.data.userName == "None")
      && (displayName.Some? && displayName.value.Some? ==> r.data.userName == displayName.value.value)
      && r.data.topArtists == Prefix(topArtists, 10)
      && r.data.genreStats == Tally.Tally(Flatten(ArtistGenres(topArtists)))
      && !r.data.evolution
      && r.data.stats == Some(Stats(
           Some(TotalMinutes(topTracks)), Some(|topTracks|), Some(|topArtists|),
           Some(TopGenre(r.data.genreStats)), Some(AveragePopularity(topTracks)), None))
      && r.message == "Cards saved to wrapped_cards/"
  {
    if !authenticated {
      return Unauthorized;
    }
    var genreStats := GenreStats(topArtists);
    var stats := Stats(Some(Sum(DurationsOf(topTracks)) / 60000), Some(|topTracks|), Some(|topArtists|),
                       Some(TopGenre(genreStats)), Some(AveragePopularity(topTracks)), None);
    var userName := match displayName
      case None => "Your"
      case Some(None) => "None"
      case Some(Some(name)) => name;
    var data := UserData(userName, Prefix(topArtists, 10), genreStats, Some(stats), false);
    var _, _, _, message := SaveAllCards(data, "wrapped_cards", pieSize, timelineSize);
    r := Generated(data, message);
  }
}
