/**
 * The unpaged top-tracks list of the web client: rank numbers, the `m:ss` duration format and
 * the three summary figures under the list. Durations are non-negative whole milliseconds.
 */
module TrackList {
  import opened Prelude
  import opened Text

  datatype ListedTrack = ListedTrack(id: string, name: string, artists: seq<string>, album: string,
                                     durationMs: nat, popularity: int)

  // ---- Durations ----

  /** `Math.floor(ms / 60000)`. */
  function MinutesField(ms: nat): nat { ms / 60000 }

  /**
   * `((ms % 60000) / 1000).toFixed(0)`: the remainder in seconds rounded half up. The quotient
   * `(k + 0.5)` of an integer by 1000 is exact in binary floating point, so ties do round up.
   */
  function SecondsField(ms: nat): nat { (ms % 60000 + 500) / 1000 }

  /** The clock text `m:ss`, with a zero before a one-digit seconds field. */
  function Clock(minutes: nat, seconds: nat): string
  {
    NatToString(minutes) + ":" + (if seconds < 10 then "0" else "") + NatToString(seconds)
  }

  /**
   * `formatDuration` as written, in both src/components/TopTracks.js and the identical copy in
   * frontend/src/components/TopTracks.js: the seconds are rounded after the minutes are taken off.
   */
  function FormatDuration(ms: nat): string
  {
    Clock(MinutesField(ms), SecondsField(ms))
  }

  /**
   * As written, the two fields still add up to the duration rounded to whole seconds, but the
   * seconds field ranges over 0..60 rather than 0..59.
   */
  lemma FormatDurationFields(ms: nat)
    ensures SecondsField(ms) <= 60
    ensures 60 * MinutesField(ms) + SecondsField(ms) == (ms + 500) / 1000
    ensures SecondsField(ms) == 60 <==> ms % 60000 >= 59500
  {
    var m, r := ms / 60000, ms % 60000;
    assert ms + 500 == 1000 * (60 * m) + (r + 500);
  }

  /** 59 500 ms is shown as "0:60" instead of "1:00". */
  lemma FormatDurationShowsSixty()
    ensures FormatDuration(59500) == "0:60"
    ensures FormatDurationCorrected(59500) == "1:00"
  {
    assert MinutesField(59500) == 0 && SecondsField(59500) == 60;
    assert NatToString(0) == "0" && NatToString(1) == "1" && NatToString(6) == "6";
    assert NatToString(60) == NatToString(6) + "0";
    assert Clock(0, 60) == "0" + ":" + "" + "60";
    assert Clock(1, 0) == "1" + ":" + "0" + "0";
  }

  /** The format evidently intended: round to whole seconds first, then split into minutes. */
  function FormatDurationCorrected(ms: nat): string
  {
    var total := (ms + 500) / 1000;
    Clock(total / 60, total % 60)
  }

  /** Reading an `m:ss` text back: the digits before the colon and the digits after it. */
  function ReadClock(s: string): Option<(int, int)>
  {
    var i := Find(s, ":");
    if i < 0 then None else Some((DigitsValue(s[..i]), DigitsValue(s[i + 1..])))
  }

  lemma {:induction false} DigitsValueLeadingZero(s: string)
    ensures DigitsValue("0" + s) == DigitsValue(s)
  {
    if s != [] {
      assert ("0" + s)[..|"0" + s| - 1] == "0" + s[..|s| - 1];
      DigitsValueLeadingZero(s[..|s| - 1]);
    }
  }

  lemma NoColonInDigits(d: string)
    requires AllDigits(d)
    ensures forall i :: 0 <= i < |d| ==> d[i] != ':'
  {
  }

  /** Reading a clock text gives back the two fields it was printed from. */
  lemma {:induction false} ClockReadsBack(minutes: nat, seconds: nat)
    ensures ReadClock(Clock(minutes, seconds)) == Some((minutes, seconds))
  {
    var ms, ss := NatToString(minutes), NatToString(seconds);
    var pad := if seconds < 10 then "0" else "";
    var c := Clock(minutes, seconds);
    assert c == ms + ":" + (pad + ss);
    NoColonInDigits(ms);
    FindAfterDigits(ms, pad + ss);
    assert c[..|ms|] == ms;
    assert c[|ms| + 1..] == pad + ss;
    if seconds < 10 {
      DigitsValueLeadingZero(ss);
    }
  }

  lemma FindAfterDigits(d: string, rest: string)
    requires forall i :: 0 <= i < |d| ==> d[i] != ':'
    ensures Find(d + ":" + rest, ":") == |d|
  {
    var s := d + ":" + rest;
    assert Occurs(s, ":", |d|) by {
      assert s[|d|..|d| + 1] == ":";
    }
    forall i | 0 <= i < |d|
      ensures !Occurs(s, ":", i)
    {
      assert s[i] == d[i];
    }
  }

  /**
   * The corrected format is canonical: its seconds field is below 60, and reading it back
   * gives minutes and seconds that add up to the duration rounded to whole seconds, exactly as
   * the fields of the written format do.
   */
  lemma FormatDurationCorrectedReadsBack(ms: nat)
    ensures ReadClock(FormatDurationCorrected(ms)).Some?
    ensures var (m, s) := ReadClock(FormatDurationCorrected(ms)).value;
      0 <= s < 60 && 60 * m + s == (ms + 500) / 1000
    ensures ReadClock(FormatDuration(ms)) == Some((MinutesField(ms), SecondsField(ms)))
  {
    var total := (ms + 500) / 1000;
    ClockReadsBack(total / 60, total % 60);
    ClockReadsBack(MinutesField(ms), SecondsField(ms));
  }

  // ---- The list and its summary ----

  /** The rank beside the track at `index` of the unpaged list. */
  function Rank(index: nat): nat { index + 1 }

  /** The list as shown, with ranks. */
  function Ranked(tracks: seq<ListedTrack>): (rows: seq<(nat, ListedTrack)>)
    ensures |rows| == |tracks|
    ensures forall i :: 0 <= i < |rows| ==> rows[i] == (i + 1, tracks[i])
  {
    seq(|tracks|, i requires 0 <= i < |tracks| => (Rank(i), tracks[i]))
  }

  function TotalDurationMs(tracks: seq<ListedTrack>): nat
  {
    if tracks == [] then 0 else TotalDurationMs(tracks[..|tracks| - 1]) + tracks[|tracks| - 1].durationMs
  }

  /** `Math.round(total / 60000)`: the nearest whole minute, halves rounded up. */
  function TotalMinutes(tracks: seq<ListedTrack>): (m: nat)
    ensures 60000 * m <= TotalDurationMs(tracks) + 30000 < 60000 * m + 60000
  {
    (TotalDurationMs(tracks) + 30000) / 60000
  }

  function TotalPopularity(tracks: seq<ListedTrack>): int
  {
    if tracks == [] then 0 else TotalPopularity(tracks[..|tracks| - 1]) + tracks[|tracks| - 1].popularity
  }

  /** `Math.round(sum / length)`, or NaN (`None`) for an empty list. */
  function AveragePopularity(tracks: seq<ListedTrack>): (r: Option<int>)
    ensures r.None? <==> tracks == []
    ensures r.Some? ==> var n := |tracks|;
      2 * n * r.value <= 2 * TotalPopularity(tracks) + n < 2 * n * r.value + 2 * n
  {
    if tracks == [] then None
    else
      var n := |tracks|;
      var q := (2 * TotalPopularity(tracks) + n) / (2 * n);
      assert 2 * n * q <= 2 * TotalPopularity(tracks) + n < 2 * n * q + 2 * n;
      Some(q)
  }

  /** All artist names, with repetitions (`flatMap`). */
  function AllArtists(tracks: seq<ListedTrack>): seq<string>
  {
    if tracks == [] then [] else AllArtists(tracks[..|tracks| - 1]) + tracks[|tracks| - 1].artists
  }

  /** `new Set(tracks.flatMap(t => t.artists)).size`. */
  function UniqueArtists(tracks: seq<ListedTrack>): nat
  {
    |ArtistSet(tracks)|
  }

  function ArtistSet(tracks: seq<ListedTrack>): set<string>
  {
    set a | a in AllArtists(tracks)
  }

  lemma {:induction false} AllArtistsMembers(tracks: seq<ListedTrack>, a: string)
    ensures a in AllArtists(tracks) <==> exists i :: 0 <= i < |tracks| && a in tracks[i].artists
  {
    if tracks != [] {
      var init := tracks[..|tracks| - 1];
      AllArtistsMembers(init, a);
      if a in AllArtists(init) {
        var i :| 0 <= i < |init| && a in init[i].artists;
        assert tracks[i] == init[i];
      }
      if exists i :: 0 <= i < |tracks| && a in tracks[i].artists {
        var i :| 0 <= i < |tracks| && a in tracks[i].artists;
        if i < |init| {
          assert init[i] == tracks[i];
        }
      }
    }
  }

  /**
   * The unique-artist figure counts each name that appears on any track once, however many
   * tracks it appears on; it is never more than the number of artist entries.
   */
  lemma UniqueArtistsCounts(tracks: seq<ListedTrack>)
    ensures UniqueArtists(tracks) <= |AllArtists(tracks)|
    ensures forall a :: a in ArtistSet(tracks) <==> exists i :: 0 <= i < |tracks| && a in tracks[i].artists
  {
    SetOfSeqSize(AllArtists(tracks));
    forall a ensures a in ArtistSet(tracks) <==> exists i :: 0 <= i < |tracks| && a in tracks[i].artists {
      AllArtistsMembers(tracks, a);
    }
  }

  lemma {:induction false} SetOfSeqSize(xs: seq<string>)
    ensures |set x | x in xs| <= |xs|
  {
    if xs != [] {
      var init := xs[..|xs| - 1];
      SetOfSeqSize(init);
      assert (set x | x in xs) == (set x | x in init) + {xs[|xs| - 1]};
    }
  }
}
