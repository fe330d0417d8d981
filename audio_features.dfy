/**
 * Audio-feature analysis: the batched upstream lookup, the six threshold descriptions, the
 * musical profile tags and the feature-based listening personality. Averages are exact `real`
 * means; the floating-point evaluation of `statistics.mean` is not part of this model.
 */
module AudioFeatures {
  import opened Prelude
  import opened Text

  /** The part of one upstream audio-features record that the analysis reads. */
  datatype Feature = Feature(id: string, energy: real, danceability: real, valence: real,
                             acousticness: real, tempo: real, instrumentalness: real)

  /** The upstream lookup: one call per batch, one answer per id, `None` for unknown ids. */
  type Oracle = seq<string> -> seq<Option<Feature>>

  // ---- Batching ----

  /** The number of batches, `ceil(n / 100)`. */
  function BatchCount(n: nat): nat { (n + 99) / 100 }

  /** Batch `k`: the slice `ids[100k : 100k + 100]`. */
  function BatchAt(ids: seq<string>, k: nat): seq<string>
    requires k < BatchCount(|ids|)
  {
    ids[100 * k .. Min(100 * k + 100, |ids|)]
  }

  /** The batches `range(0, n, 100)` sends, in order. */
  function Batches(ids: seq<string>): (bs: seq<seq<string>>)
    ensures |bs| == BatchCount(|ids|)
    ensures forall k :: 0 <= k < |bs| ==> bs[k] == BatchAt(ids, k)
  {
    seq(BatchCount(|ids|), k requires 0 <= k < BatchCount(|ids|) => BatchAt(ids, k))
  }

  /** What the oracle answers, batch by batch. */
  function Answers(oracle: Oracle, bs: seq<seq<string>>): (rs: seq<seq<Option<Feature>>>)
    ensures |rs| == |bs| && forall k :: 0 <= k < |bs| ==> rs[k] == oracle(bs[k])
  {
    seq(|bs|, k requires 0 <= k < |bs| => oracle(bs[k]))
  }

  lemma BatchBounds(n: nat, k: nat)
    requires k < BatchCount(n)
    ensures 100 * k < n
  {
    assert 100 * k + 100 <= n + 100 - 1 by {
      assert 100 * (k + 1) <= 100 * BatchCount(n);
    }
  }

  /** The batches before batch `k` cover exactly the first `100k` ids. */
  lemma {:induction false} BatchesPrefix(ids: seq<string>, k: nat)
    requires k <= BatchCount(|ids|)
    ensures Flatten(Batches(ids)[..k]) == ids[..Min(100 * k, |ids|)]
  {
    if k == 0 {
      assert Batches(ids)[..0] == [];
    } else {
      BatchesPrefix(ids, k - 1);
      BatchBounds(|ids|, k - 1);
      assert Batches(ids)[..k] == Batches(ids)[..k - 1] + [BatchAt(ids, k - 1)];
      FlattenAppend(Batches(ids)[..k - 1], [BatchAt(ids, k - 1)]);
      FlattenSingle(BatchAt(ids, k - 1));
      assert ids[..100 * (k - 1)] + BatchAt(ids, k - 1) == ids[..Min(100 * k, |ids|)];
    }
  }

  /**
   * Batching issues `ceil(n/100)` calls; every batch is a non-empty run of at most 100 ids, and
   * the batches, concatenated, give back the ids in order.
   */
  lemma BatchesSpec(ids: seq<string>)
    ensures var bs := Batches(ids);
      && |bs| == BatchCount(|ids|)
      && (forall k :: 0 <= k < |bs| ==> 0 < |bs[k]| <= 100)
      && Flatten(bs) == ids
  {
    var bs := Batches(ids);
    forall k | 0 <= k < |bs|
      ensures 0 < |bs[k]| <= 100
    {
      BatchBounds(|ids|, k);
    }
    BatchesPrefix(ids, |bs|);
    assert 100 * |bs| >= |ids|;
    assert bs[..|bs|] == bs;
  }

  /** `get_audio_features`: query each batch, keep the answers that are not `None`. */
  method GetAudioFeatures(oracle: Oracle, ids: seq<string>) returns (features: seq<Feature>, calls: seq<seq<string>>)
    ensures calls == Batches(ids)
    ensures features == Somes(Flatten(Answers(oracle, calls)))
  {
    features := [];
    calls := [];
    var i := 0;
    while i < |ids|
      invariant |calls| <= BatchCount(|ids|) && i == 100 * |calls|
      invariant forall k :: 0 <= k < |calls| ==> calls[k] == BatchAt(ids, k)
      invariant features == Somes(Flatten(Answers(oracle, calls)))
      decreases |ids| - i
    {
      var batch := ids[i .. Min(i + 100, |ids|)];
      BatchLeft(|ids|, |calls|);
      assert batch == BatchAt(ids, |calls|);
      var answer := oracle(batch);
      AnswersSnoc(oracle, calls, batch);
      features := features + Somes(answer);
      calls := calls + [batch];
      i := i + 100;
    }
    BatchesCover(|ids|, |calls|);
  }

  /** A batch starts below `n` only while batches are left. */
  lemma BatchLeft(n: nat, m: nat)
    requires 100 * m < n
    ensures m < BatchCount(n)
  {
  }

  lemma BatchesCover(n: nat, m: nat)
    requires m <= BatchCount(n) && 100 * m >= n
    ensures m == BatchCount(n)
  {
  }

  lemma AnswersSnoc(oracle: Oracle, bs: seq<seq<string>>, b: seq<string>)
    ensures Somes(Flatten(Answers(oracle, bs + [b]))) == Somes(Flatten(Answers(oracle, bs))) + Somes(oracle(b))
  {
    assert Answers(oracle, bs + [b]) == Answers(oracle, bs) + [oracle(b)];
    FlattenAppend(Answers(oracle, bs), [oracle(b)]);
    FlattenSingle(oracle(b));
    SomesAppend(Flatten(Answers(oracle, bs)), oracle(b));
  }

  /** The answers kept are exactly the present ones. */
  lemma {:induction false} SomesMembers<T>(xs: seq<Option<T>>, x: T)
    ensures x in Somes(xs) <==> Some(x) in xs
    ensures |Somes(xs)| <= |xs|
  {
    if xs != [] {
      SomesMembers(xs[1..], x);
      assert xs == [xs[0]] + xs[1..];
    }
  }

  // ---- Descriptions ----

  const EnergyLabels: seq<string> := [
    "🧘 Very Chill - You prefer calm, relaxing music",
    "😌 Mellow - Your music is laid-back and easy-going",
    "🎵 Balanced - A good mix of calm and energetic tracks",
    "⚡ Energetic - You like music that gets you moving",
    "🔥 High Energy - Your playlist is full of bangers!"
  ]

  const DanceabilityLabels: seq<string> := [
    "🪑 Not for dancing - More for listening and contemplation",
    "🚶 Light groove - Subtle rhythm, not dance-focused",
    "🕺 Groovy - Good rhythm that makes you move",
    "💃 Very danceable - Perfect for the dancefloor",
    "🕺💃 Dance machine - Your music demands movement!"
  ]

  const MoodLabels: seq<string> := [
    "😢 Melancholic - Deep, emotional, introspective music",
    "🌧️ Somewhat sad - Thoughtful and contemplative vibes",
    "😐 Neutral mood - Balanced emotional content",
    "😊 Upbeat - Generally positive and cheerful",
    "😄 Very happy - Your music radiates joy and positivity!"
  ]

  const AcousticnessLabels: seq<string> := [
    "🎹 Electronic - Heavily produced and synthesized",
    "🎸 Mixed - Good balance of acoustic and electronic",
    "🎻 Mostly acoustic - Natural instruments dominate",
    "🪕 Very acoustic - Raw, unplugged sound"
  ]

  const TempoLabels: seq<string> := [
    "🐌 Slow tempo - Relaxed and unhurried pace",
    "🚶 Moderate tempo - Walking pace rhythm",
    "🏃 Upbeat tempo - Energizing rhythm",
    "🏃‍♀️ Fast tempo - High-energy beats",
    "🚀 Very fast - Intense, rapid-fire rhythm"
  ]

  const InstrumentalnessLabels: seq<string> := [
    "🎤 Vocal-focused - Lyrics are central",
    "🎵 Mostly vocals - Some instrumental breaks",
    "🎼 Balanced - Good mix of vocals and instruments",
    "🎹 Mostly instrumental - Limited vocals",
    "🎻 Pure instrumental - No vocals, just instruments"
  ]

  /** Index of the first cut strictly above `x`: how many `if x < cut` tests fail. */
  function Bucket(x: real, cuts: seq<real>): (k: nat)
    ensures k <= |cuts|
    ensures k < |cuts| ==> x < cuts[k]
    ensures forall j :: 0 <= j < k ==> cuts[j] <= x
  {
    if cuts == [] then 0
    else if x < cuts[0] then 0
    else
      var k := Bucket(x, cuts[1..]);
      assert forall j :: 1 <= j < 1 + k ==> cuts[j] == cuts[1..][j - 1];
      1 + k
  }

  predicate Increasing(cuts: seq<real>)
  {
    forall i, j :: 0 <= i < j < |cuts| ==> cuts[i] < cuts[j]
  }

  /** How many cuts lie at or below `x`. */
  function CutsAtOrBelow(x: real, cuts: seq<real>): nat
  {
    if cuts == [] then 0 else (if cuts[0] <= x then 1 else 0) + CutsAtOrBelow(x, cuts[1..])
  }

  /** With increasing cuts, the bucket is the number of cuts at or below the value. */
  lemma {:induction false} BucketCountsCuts(x: real, cuts: seq<real>)
    requires Increasing(cuts)
    ensures Bucket(x, cuts) == CutsAtOrBelow(x, cuts)
  {
    if cuts != [] {
      assert Increasing(cuts[1..]) by {
        forall i, j | 0 <= i < j < |cuts| - 1 ensures cuts[1..][i] < cuts[1..][j] {
          assert cuts[1..][i] == cuts[i + 1] && cuts[1..][j] == cuts[j + 1];
        }
      }
      BucketCountsCuts(x, cuts[1..]);
      if x < cuts[0] {
        NoneAtOrBelow(x, cuts[1..]);
      }
    }
  }

  lemma {:induction false} NoneAtOrBelow(x: real, cuts: seq<real>)
    requires forall i :: 0 <= i < |cuts| ==> x < cuts[i]
    ensures CutsAtOrBelow(x, cuts) == 0
  {
    if cuts != [] {
      NoneAtOrBelow(x, cuts[1..]);
    }
  }

  /** With increasing cuts, a larger value never falls in a lower bucket. */
  lemma BucketMonotone(x: real, y: real, cuts: seq<real>)
    requires Increasing(cuts) && x <= y
    ensures Bucket(x, cuts) <= Bucket(y, cuts)
  {
  }

  const EnergyCuts: seq<real> := [0.3, 0.5, 0.7, 0.85]

  function EnergyDescription(energy: real): string
  {
    if energy < 0.3 then EnergyLabels[0]
    else if energy < 0.5 then EnergyLabels[1]
    else if energy < 0.7 then EnergyLabels[2]
    else if energy < 0.85 then EnergyLabels[3]
    else EnergyLabels[4]
  }

  const DanceabilityCuts: seq<real> := [0.3, 0.5, 0.7, 0.85]

  function DanceabilityDescription(danceability: real): string
  {
    if danceability < 0.3 then DanceabilityLabels[0]
    else if danceability < 0.5 then DanceabilityLabels[1]
    else if danceability < 0.7 then DanceabilityLabels[2]
    else if danceability < 0.85 then DanceabilityLabels[3]
    else DanceabilityLabels[4]
  }

  const MoodCuts: seq<real> := [0.2, 0.4, 0.6, 0.8]

  function MoodDescription(valence: real): string
  {
    if valence < 0.2 then MoodLabels[0]
    else if valence < 0.4 then MoodLabels[1]
    else if valence < 0.6 then MoodLabels[2]
    else if valence < 0.8 then MoodLabels[3]
    else MoodLabels[4]
  }

  const AcousticnessCuts: seq<real> := [0.2, 0.5, 0.8]

  function AcousticnessDescription(acousticness: real): string
  {
    if acousticness < 0.2 then AcousticnessLabels[0]
    else if acousticness < 0.5 then AcousticnessLabels[1]
    else if acousticness < 0.8 then AcousticnessLabels[2]
    else AcousticnessLabels[3]
  }

  const TempoCuts: seq<real> := [80.0, 110.0, 130.0, 150.0]

  function TempoDescription(tempo: real): string
  {
    if tempo < 80.0 then TempoLabels[0]
    else if tempo < 110.0 then TempoLabels[1]
    else if tempo < 130.0 then TempoLabels[2]
    else if tempo < 150.0 then TempoLabels[3]
    else TempoLabels[4]
  }

  const InstrumentalnessCuts: seq<real> := [0.1, 0.3, 0.6, 0.8]

  function InstrumentalnessDescription(instrumentalness: real): string
  {
    if instrumentalness < 0.1 then InstrumentalnessLabels[0]
    else if instrumentalness < 0.3 then InstrumentalnessLabels[1]
    else if instrumentalness < 0.6 then InstrumentalnessLabels[2]
    else if instrumentalness < 0.8 then InstrumentalnessLabels[3]
    else InstrumentalnessLabels[4]
  }

  /** The energy cuts increase and the description is the label of the value's bucket. */
  lemma EnergyBuckets(x: real)
    ensures Increasing(EnergyCuts)
    ensures EnergyDescription(x) == EnergyLabels[Bucket(x, EnergyCuts)]
  {
    if x < 0.3 { BucketIs(x, EnergyCuts, 0); }
    else if x < 0.5 { BucketIs(x, EnergyCuts, 1); }
    else if x < 0.7 { BucketIs(x, EnergyCuts, 2); }
    else if x < 0.85 { BucketIs(x, EnergyCuts, 3); }
    else { BucketIs(x, EnergyCuts, 4); }
  }

  /** The danceability cuts increase and the description is the label of the value's bucket. */
  lemma DanceabilityBuckets(x: real)
    ensures Increasing(DanceabilityCuts)
    ensures DanceabilityDescription(x) == DanceabilityLabels[Bucket(x, DanceabilityCuts)]
  {
    if x < 0.3 { BucketIs(x, DanceabilityCuts, 0); }
    else if x < 0.5 { BucketIs(x, DanceabilityCuts, 1); }
    else if x < 0.7 { BucketIs(x, DanceabilityCuts, 2); }
    else if x < 0.85 { BucketIs(x, DanceabilityCuts, 3); }
    else { BucketIs(x, DanceabilityCuts, 4); }
  }

  /** The mood cuts increase and the description is the label of the value's bucket. */
  lemma MoodBuckets(x: real)
    ensures Increasing(MoodCuts)
    ensures MoodDescription(x) == MoodLabels[Bucket(x, MoodCuts)]
  {
    if x < 0.2 { BucketIs(x, MoodCuts, 0); }
    else if x < 0.4 { BucketIs(x, MoodCuts, 1); }
    else if x < 0.6 { BucketIs(x, MoodCuts, 2); }
    else if x < 0.8 { BucketIs(x, MoodCuts, 3); }
    else { BucketIs(x, MoodCuts, 4); }
  }

  /** The acousticness cuts increase and the description is the label of the value's bucket. */
  lemma AcousticnessBuckets(x: real)
    ensures Increasing(AcousticnessCuts)
    ensures AcousticnessDescription(x) == AcousticnessLabels[Bucket(x, AcousticnessCuts)]
  {
    if x < 0.2 { BucketIs(x, AcousticnessCuts, 0); }
    else if x < 0.5 { BucketIs(x, AcousticnessCuts, 1); }
    else if x < 0.8 { BucketIs(x, AcousticnessCuts, 2); }
    else { BucketIs(x, AcousticnessCuts, 3); }
  }

  /** The tempo cuts increase and the description is the label of the value's bucket. */
  lemma TempoBuckets(x: real)
    ensures Increasing(TempoCuts)
    ensures TempoDescription(x) == TempoLabels[Bucket(x, TempoCuts)]
  {
    if x < 80.0 { BucketIs(x, TempoCuts, 0); }
    else if x < 110.0 { BucketIs(x, TempoCuts, 1); }
    else if x < 130.0 { BucketIs(x, TempoCuts, 2); }
    else if x < 150.0 { BucketIs(x, TempoCuts, 3); }
    else { BucketIs(x, TempoCuts, 4); }
  }

  /** The instrumentalness cuts increase and the description is the label of the value's bucket. */
  lemma InstrumentalnessBuckets(x: real)
    ensures Increasing(InstrumentalnessCuts)
    ensures InstrumentalnessDescription(x) == InstrumentalnessLabels[Bucket(x, InstrumentalnessCuts)]
  {
    if x < 0.1 { BucketIs(x, InstrumentalnessCuts, 0); }
    else if x < 0.3 { BucketIs(x, InstrumentalnessCuts, 1); }
    else if x < 0.6 { BucketIs(x, InstrumentalnessCuts, 2); }
    else if x < 0.8 { BucketIs(x, InstrumentalnessCuts, 3); }
    else { BucketIs(x, InstrumentalnessCuts, 4); }
  }

  /** The bucket is the one index whose cuts below are passed and whose own cut is not. */
  lemma BucketIs(x: real, cuts: seq<real>, k: nat)
    requires k <= |cuts| && (k < |cuts| ==> x < cuts[k])
    requires forall j :: 0 <= j < k ==> cuts[j] <= x
    ensures Bucket(x, cuts) == k
  {
  }

  // ---- Analysis ----

  /** The six means the analysis reads. */
  datatype Averages = Averages(energy: real, danceability: real, valence: real, acousticness: real,
                               tempo: real, instrumentalness: real)

  function Mean(xs: seq<real>): real
    requires xs != []
  {
    RealSum(xs) / (|xs| as real)
  }

  function AveragesOf(fs: seq<Feature>): Averages
    requires fs != []
  {
    Averages(
      Mean(seq(|fs|, i requires 0 <= i < |fs| => fs[i].energy)),
      Mean(seq(|fs|, i requires 0 <= i < |fs| => fs[i].danceability)),
      Mean(seq(|fs|, i requires 0 <= i < |fs| => fs[i].valence)),
      Mean(seq(|fs|, i requires 0 <= i < |fs| => fs[i].acousticness)),
      Mean(seq(|fs|, i requires 0 <= i < |fs| => fs[i].tempo)),
      Mean(seq(|fs|, i requires 0 <= i < |fs| => fs[i].instrumentalness)))
  }

  datatype Analysis = Analysis(
    averages: Averages, descriptions: seq<string>, musicalProfile: string,
    mostEnergetic: Feature, mostDanceable: Feature, happiest: Feature, saddest: Feature, fastest: Feature)

  /** The ids the analysis sends: those of tracks whose id is present and non-empty, in order. */
  function PresentIds(ids: seq<string>): (r: seq<string>)
    ensures forall x :: x in r <==> x in ids && x != ""
    ensures forall x :: multiset(r)[x] == if x == "" then 0 else multiset(ids)[x]
    ensures |r| <= |ids|
  {
    if ids == [] then []
    else
      var rest := PresentIds(ids[1..]);
      assert ids == [ids[0]] + ids[1..];
      if ids[0] != "" then [ids[0]] + rest else rest
  }

  /**
   * The filter keeps the relative order: filtering a concatenation filters each part, and a
   * list without empty ids passes unchanged.
   */
  lemma {:induction false} PresentIdsAppend(a: seq<string>, b: seq<string>)
    ensures PresentIds(a + b) == PresentIds(a) + PresentIds(b)
  {
    if a == [] {
      assert a + b == b;
    } else {
      assert (a + b)[1..] == a[1..] + b;
      PresentIdsAppend(a[1..], b);
    }
  }

  lemma {:induction false} PresentIdsKeepsFullIds(ids: seq<string>)
    requires "" !in ids
    ensures PresentIds(ids) == ids
  {
    if ids != [] {
      assert ids[1..] == ids[1..];
      assert "" !in ids[1..] by { assert forall x :: x in ids[1..] ==> x in ids; }
      PresentIdsKeepsFullIds(ids[1..]);
    }
  }

  function AnalysisOf(fs: seq<Feature>): (a: Analysis)
    requires fs != []
    ensures a.mostEnergetic in fs && forall f :: f in fs ==> f.energy <= a.mostEnergetic.energy
    ensures a.mostDanceable in fs && forall f :: f in fs ==> f.danceability <= a.mostDanceable.danceability
    ensures a.happiest in fs && forall f :: f in fs ==> f.valence <= a.happiest.valence
    ensures a.saddest in fs && forall f :: f in fs ==> a.saddest.valence <= f.valence
    ensures a.fastest in fs && forall f :: f in fs ==> f.tempo <= a.fastest.tempo
    // On a tie Python's `max` and `min` keep the first of the tied features.
    ensures exists i :: 0 <= i < |fs| && fs[i] == a.mostEnergetic && forall j :: 0 <= j < i ==> fs[j].energy < fs[i].energy
    ensures exists i :: 0 <= i < |fs| && fs[i] == a.mostDanceable && forall j :: 0 <= j < i ==> fs[j].danceability < fs[i].danceability
    ensures exists i :: 0 <= i < |fs| && fs[i] == a.happiest && forall j :: 0 <= j < i ==> fs[j].valence < fs[i].valence
    ensures exists i :: 0 <= i < |fs| && fs[i] == a.saddest && forall j :: 0 <= j < i ==> fs[i].valence < fs[j].valence
    ensures exists i :: 0 <= i < |fs| && fs[i] == a.fastest && forall j :: 0 <= j < i ==> fs[j].tempo < fs[i].tempo
  {
    var avg := AveragesOf(fs);
    Analysis(
      avg,
      [EnergyDescription(avg.energy), DanceabilityDescription(avg.danceability), MoodDescription(avg.valence),
       AcousticnessDescription(avg.acousticness), TempoDescription(avg.tempo),
       InstrumentalnessDescription(avg.instrumentalness)],
      MusicalProfile(avg),
      fs[FirstArgMax(fs, (f: Feature) => f.energy)],
      fs[FirstArgMax(fs, (f: Feature) => f.danceability)],
      fs[FirstArgMax(fs, (f: Feature) => f.valence)],
      fs[FirstArgMin(fs, (f: Feature) => f.valence)],
      fs[FirstArgMax(fs, (f: Feature) => f.tempo)])
  }

  /**
   * `analyze_music_characteristics`: the empty analysis (`None`) when no track has an id or the
   * upstream knows none of them; otherwise the analysis of the features it returned.
   */
  method AnalyzeMusicCharacteristics(oracle: Oracle, trackIds: seq<string>) returns (r: Option<Analysis>)
    ensures var ids := PresentIds(trackIds);
      var fs := Somes(Flatten(Answers(oracle, Batches(ids))));
      && (r.None? <==> ids == [] || fs == [])
      && (r.Some? ==> r.value == AnalysisOf(fs))
  {
    var ids := PresentIds(trackIds);
    if ids == [] {
      return None;
    }
    var features, _ := GetAudioFeatures(oracle, ids);
    if features == [] {
      return None;
    }
    r := Some(AnalysisOf(features));
  }

  // ---- Profile and personality ----

  const ProfileTags: seq<string> := [
    "🎉 Party Enthusiast",
    "🎸 Intense & Emotional",
    "☀️ Peaceful & Happy",
    "🌙 Deep & Introspective",
    "💃 Dance Floor Regular",
    "🎧 Deep Listener",
    "🎸 Acoustic Lover",
    "🎹 Electronic Fan"
  ]

  const EclecticListener: string := "🎵 Eclectic Listener"

  function MoodTags(energy: real, valence: real): seq<string>
  {
    if energy > 0.7 && valence > 0.7 then [ProfileTags[0]]
    else if energy > 0.7 && valence < 0.3 then [ProfileTags[1]]
    else if energy < 0.3 && valence > 0.7 then [ProfileTags[2]]
    else if energy < 0.3 && valence < 0.3 then [ProfileTags[3]]
    else []
  }

  function DanceTags(danceability: real): seq<string>
  {
    if danceability > 0.75 then [ProfileTags[4]] else if danceability < 0.25 then [ProfileTags[5]] else []
  }

  function AcousticTags(acousticness: real): seq<string>
  {
    if acousticness > 0.7 then [ProfileTags[6]] else if acousticness < 0.2 then [ProfileTags[7]] else []
  }

  /** The tags of `generate_musical_profile`, in the order they are appended. */
  function ProfileTagsOf(avg: Averages): seq<string>
  {
    MoodTags(avg.energy, avg.valence) + DanceTags(avg.danceability) + AcousticTags(avg.acousticness)
  }

  /** `generate_musical_profile`. */
  function MusicalProfile(avg: Averages): string
  {
    var tags := ProfileTagsOf(avg);
    if tags == [] then EclecticListener else Join(tags, " | ")
  }

  /**
   * The profile takes at most one tag from each of the mood, dance and acoustic groups, in that
   * order; a mood tag needs an extreme energy and an extreme valence; the fallback is used
   * exactly when no group yields one, and a single tag is shown alone.
   */
  lemma MusicalProfileShape(avg: Averages)
    ensures var tags := ProfileTagsOf(avg);
      && |tags| <= 3
      && (forall t :: t in tags ==> t in ProfileTags)
      && (MoodTags(avg.energy, avg.valence) != [] ==>
            tags[0] in ProfileTags[..4] && (avg.energy > 0.7 || avg.energy < 0.3) && (avg.valence > 0.7 || avg.valence < 0.3))
      && (MusicalProfile(avg) == EclecticListener <==> tags == [])
      && (|tags| == 1 ==> MusicalProfile(avg) == tags[0])
  {
    var tags := ProfileTagsOf(avg);
    if tags != [] {
      assert tags[0] in ProfileTags;
      JoinNotEclectic(tags);
    }
  }

  lemma JoinNotEclectic(tags: seq<string>)
    requires tags != [] && forall t :: t in tags ==> t in ProfileTags
    ensures Join(tags, " | ") != EclecticListener
  {
    assert tags[0] in ProfileTags;
    assert tags[0][0] != EclecticListener[0];
    if |tags| > 1 {
      assert Join(tags, " | ") == tags[0] + " | " + Join(tags[1..], " | ");
    }
    assert Join(tags, " | ")[0] == tags[0][0];
  }

  datatype Personality = Personality(kind: string, description: string, emoji: string)

  /** The six personalities, in the order their rules are tried. */
  const Personalities: seq<Personality> := [
    Personality("The Life of the Party", "You love upbeat, energetic music that gets everyone moving. Your playlists are perfect for celebrations and workouts.", "🎉"),
    Personality("The Deep Thinker", "You prefer introspective, emotional music that speaks to the soul. Your playlists are perfect for late-night contemplation.", "🤔"),
    Personality("The Purist", "You appreciate authentic, acoustic sounds. Raw talent and genuine emotion matter more to you than production value.", "🎸"),
    Personality("The Rhythm Seeker", "The beat is what moves you. If it doesn't make you want to dance, it's not worth your time.", "🕺"),
    Personality("The Optimist", "Your music choices reflect your positive outlook. You use music to uplift your mood and spread good vibes.", "😊"),
    Personality("The Explorer", "Your taste is diverse and adventurous. You appreciate all types of music and aren't confined to one style.", "🌎")
  ]

  /** `get_listening_personality`. */
  function ListeningPersonality(avg: Averages): Personality
  {
    var e, v, d, a := avg.energy, avg.valence, avg.danceability, avg.acousticness;
    if e > 0.6 && v > 0.6 && d > 0.6 then Personalities[0]
    else if e < 0.4 && v < 0.4 then Personalities[1]
    else if a > 0.7 then Personalities[2]
    else if d > 0.7 then Personalities[3]
    else if v > 0.7 then Personalities[4]
    else Personalities[5]
  }

  /** The personality rules as a list of conditions, tried in order. */
  function Rules(avg: Averages): seq<bool>
  {
    var e, v, d, a := avg.energy, avg.valence, avg.danceability, avg.acousticness;
    [e > 0.6 && v > 0.6 && d > 0.6, e < 0.4 && v < 0.4, a > 0.7, d > 0.7, v > 0.7, true]
  }

  function FirstTrue(bs: seq<bool>): (k: nat)
    requires true in bs
    ensures k < |bs| && bs[k] && forall j :: 0 <= j < k ==> !bs[j]
  {
    if bs[0] then 0
    else
      assert true in bs[1..];
      var k := FirstTrue(bs[1..]);
      assert forall j :: 1 <= j < 1 + k ==> bs[j] == bs[1..][j - 1];
      1 + k
  }

  /**
   * The personality is the one of the first rule that holds; the rules are distinct, so the
   * personality names exactly which rule decided, and a party mood overrides all the others.
   */
  lemma ListeningPersonalityPriority(avg: Averages)
    ensures FirstTrue(Rules(avg)) < |Personalities|
    ensures ListeningPersonality(avg) == Personalities[FirstTrue(Rules(avg))]
    ensures (ListeningPersonality(avg).kind == "The Life of the Party") <==>
      (avg.energy > 0.6 && avg.valence > 0.6 && avg.danceability > 0.6)
    ensures ListeningPersonality(avg).kind == "The Explorer" <==> forall j :: 0 <= j < 5 ==> !Rules(avg)[j]
  {
    var rs := Rules(avg);
    assert rs[5];
    var k := FirstTrue(rs);
    if rs[0] { assert k == 0; }
    else if rs[1] { assert k == 1; }
    else if rs[2] { assert k == 2; }
    else if rs[3] { assert k == 3; }
    else if rs[4] { assert k == 4; }
    else { assert k == 5; }
  }
}
