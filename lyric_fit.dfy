/**
 * Lyric-fit scoring (the compatibility panel of app.py, lines 120-149).
 *
 * Vowels in the lyrics stand in for syllables. Their number is divided by
 * half the tempo (120 beats per minute when the tempo is not positive) to give
 * a density, and a first-match chain on the articulation rating and the
 * density picks one of five verdicts, each shown with a fixed progress value.
 * Empty lyrics get no score.
 */
module LyricFit {

  /** The tempo used when the extracted tempo is zero or negative. */
  const DefaultBpm: int := 120

  /**
   * The least integer that Python cannot convert to a float: 2^1024 - 2^970,
   * the point halfway between the largest double and 2^1024, which rounds up.
   * Multiplying a tempo this large by 0.5 raises OverflowError.
   */
  const FloatOverflowBound: nat := 0xFFFFFFFFFFFFFC00000000000000000000000000000000000000000000000000000000000000000000000000000000000000000000000000000000000000000000000000000000000000000000000000000000000000000000000000000000000000000000000000000000000000000000000000000000000000000000000000

  /** A character whose lower-case form is one of a, e, i, o, u. */
  predicate IsVowel(c: char) {
    c in "aeiouAEIOU"
  }

  /** The syllable estimate: how many characters of the lyrics are vowels. */
  function CountVowels(s: string): (n: nat)
    ensures n <= |s|
  {
    if s == [] then 0 else (if IsVowel(s[0]) then 1 else 0) + CountVowels(s[1..])
  }

  /** The positions of the vowels: an independent reading of the vowel count. */
  ghost function VowelPositions(s: string): set<nat> {
    set k: nat | k < |s| && IsVowel(s[k])
  }

  lemma {:induction false} CountVowelsAppend(a: string, b: string)
    ensures CountVowels(a + b) == CountVowels(a) + CountVowels(b)
    decreases |a|
  {
    if a != [] {
      assert (a + b)[0] == a[0];
      assert (a + b)[1..] == a[1..] + b;
      CountVowelsAppend(a[1..], b);
    } else {
      assert a + b == b;
    }
  }

  /** The vowel count is the number of positions that hold a vowel. */
  lemma {:induction false} CountVowelsIsVowelPositions(s: string)
    ensures CountVowels(s) == |VowelPositions(s)|
    decreases |s|
  {
    if s != [] {
      var init, last := s[..|s| - 1], s[|s| - 1];
      assert s == init + [last];
      CountVowelsAppend(init, [last]);
      CountVowelsIsVowelPositions(init);
      assert [last][1..] == [];
      if IsVowel(last) {
        assert VowelPositions(s) == VowelPositions(init) + {|s| - 1};
      } else {
        assert VowelPositions(s) == VowelPositions(init);
      }
    }
  }

  /** safe_bpm: the tempo itself when positive, otherwise the default. */
  function SafeBpm(bpm: int): (b: int)
    ensures b > 0
    ensures bpm > 0 ==> b == bpm
    ensures bpm <= 0 ==> b == DefaultBpm
  {
    if bpm > 0 then bpm else DefaultBpm
  }

  /** Vowels per half beat, computed exactly. */
  function Density(vowels: nat, safeBpm: int): (d: real)
    requires safeBpm > 0
    ensures d >= 0.0
  {
    vowels as real / (safeBpm as real * 0.5)
  }

  datatype Verdict =
    | HighRisk     // low articulation, dense lyrics
    | GoodFit      // low articulation, sparse lyrics
    | PacingAlert  // high articulation, very dense lyrics
    | CleanMatch   // high articulation, lyrics fit the tempo
    | Balanced     // articulation between 4 and 7

  /**
   * What the panel shows: nothing to score, or a density and a verdict. A
   * tempo too large for a float stops the panel with OverflowError.
   */
  datatype Fit = NoLyrics | TempoOverflow | Scored(density: real, verdict: Verdict)

  /** The value of the progress bar shown with each verdict. */
  function Progress(v: Verdict): (p: nat)
    ensures 20 <= p <= 100
  {
    match v
    case HighRisk => 20
    case GoodFit => 90
    case PacingAlert => 50
    case CleanMatch => 100
    case Balanced => 70
  }

  /** The if/elif chain: articulation first, then the density threshold of its branch. */
  function Classify(density: real, art: int): Verdict {
    if art < 4 then
      if density > 10.0 then HighRisk else GoodFit
    else if art > 7 then
      if density > 12.0 then PacingAlert else CleanMatch
    else
      Balanced
  }

  /** The compatibility panel for the given lyrics, extracted tempo and articulation rating. */
  function ScoreFit(lyrics: string, bpm: int, art: int): (f: Fit)
    ensures f.NoLyrics? <==> lyrics == []
    ensures f.TempoOverflow? <==> lyrics != [] && SafeBpm(bpm) >= FloatOverflowBound
    ensures f.Scored? ==> f.density >= 0.0
  {
    if lyrics == [] then NoLyrics
    else if SafeBpm(bpm) >= FloatOverflowBound then TempoOverflow
    else
      var density := Density(CountVowels(lyrics), SafeBpm(bpm));
      Scored(density, Classify(density, art))
  }

  /** The same classification in integers: density above t means twice the vowels exceed t beats. */
  function ClassifyByCounts(vowels: nat, safeBpm: int, art: int): Verdict {
    if art < 4 then
      if vowels > 5 * safeBpm then HighRisk else GoodFit
    else if art > 7 then
      if vowels > 6 * safeBpm then PacingAlert else CleanMatch
    else
      Balanced
  }

  /** A density threshold is a comparison of integers. */
  lemma DensityAbove(vowels: nat, safeBpm: int, t: nat)
    requires safeBpm > 0
    ensures Density(vowels, safeBpm) > t as real <==> 2 * vowels > t * safeBpm
  {
    var d := Density(vowels, safeBpm);
    var half := safeBpm as real * 0.5;
    assert d * half == vowels as real;
    assert (t * safeBpm) as real == t as real * safeBpm as real;
    if d > t as real {
      assert d * half > t as real * half;
    } else {
      assert d * half <= t as real * half;
    }
  }

  /** Scoring agrees with the integer classification for all lyrics, tempos and ratings. */
  lemma ScoreFitByCounts(lyrics: string, bpm: int, art: int)
    ensures var f := ScoreFit(lyrics, bpm, art);
            f.Scored? ==> f.verdict == ClassifyByCounts(CountVowels(lyrics), SafeBpm(bpm), art)
  {
    DensityAbove(CountVowels(lyrics), SafeBpm(bpm), 10);
    DensityAbove(CountVowels(lyrics), SafeBpm(bpm), 12);
  }

  /** Any tempo that is not positive scores exactly like 120 beats per minute. */
  lemma NonPositiveBpmScoresAsDefault(lyrics: string, bpm: int, art: int)
    requires bpm <= 0
    ensures ScoreFit(lyrics, bpm, art) == ScoreFit(lyrics, DefaultBpm, art)
  {
  }

  /** Lyrics with at least as many vowels never get a higher progress value. */
  lemma MoreVowelsNeverRaiseProgress(fewer: string, more: string, bpm: int, art: int)
    requires fewer != [] && more != []
    requires CountVowels(fewer) <= CountVowels(more)
    ensures ScoreFit(more, bpm, art).Scored? <==> ScoreFit(fewer, bpm, art).Scored?
    ensures ScoreFit(more, bpm, art).Scored? ==>
              Progress(ScoreFit(more, bpm, art).verdict) <= Progress(ScoreFit(fewer, bpm, art).verdict)
  {
    ScoreFitByCounts(fewer, bpm, art);
    ScoreFitByCounts(more, bpm, art);
  }

  /** Adding text to the lyrics never raises the progress value. */
  lemma LongerLyricsNeverRaiseProgress(lyrics: string, extra: string, bpm: int, art: int)
    requires lyrics != []
    ensures ScoreFit(lyrics + extra, bpm, art).Scored? <==> ScoreFit(lyrics, bpm, art).Scored?
    ensures ScoreFit(lyrics, bpm, art).Scored? ==>
              Progress(ScoreFit(lyrics + extra, bpm, art).verdict) <= Progress(ScoreFit(lyrics, bpm, art).verdict)
  {
    CountVowelsAppend(lyrics, extra);
    MoreVowelsNeverRaiseProgress(lyrics, lyrics + extra, bpm, art);
  }

  /** A rating from 4 to 7 is Balanced whatever the lyrics and the tempo. */
  lemma MiddleArticulationIsBalanced(lyrics: string, bpm: int, art: int)
    requires 4 <= art <= 7
    ensures ScoreFit(lyrics, bpm, art).Scored? ==> ScoreFit(lyrics, bpm, art).verdict == Balanced
  {
  }

  /** A tempo at the float limit stops scoring, one below it is scored. */
  lemma TempoOverflowBoundary(lyrics: string, art: int)
    requires lyrics != []
    ensures ScoreFit(lyrics, FloatOverflowBound, art) == TempoOverflow
    ensures ScoreFit(lyrics, FloatOverflowBound - 1, art).Scored?
  {
  }

  /** Worked examples: no lyrics give no score, and a tempo of 0 scores like 120. */
  lemma ScoreFitExamples()
    ensures ScoreFit("", 120, 5) == NoLyrics
    ensures ScoreFit("aaaaaaaaaaaaaaaaaaaa", 0, 2) == ScoreFit("aaaaaaaaaaaaaaaaaaaa", 120, 2)
  {
  }

  /** Worked example: twenty vowels at 120 beats per minute with rating 2 give density 20/60 and GoodFit. */
  lemma TwentyVowelsExample()
    ensures ScoreFit("aaaaaaaaaaaaaaaaaaaa", 120, 2) == Scored(20.0 / 60.0, GoodFit)
  {
    var a10 := "aaaaaaaaaa";
    assert CountVowels(a10) == 10;
    CountVowelsAppend(a10, a10);
    assert a10 + a10 == "aaaaaaaaaaaaaaaaaaaa";
    assert CountVowels("aaaaaaaaaaaaaaaaaaaa") == 20;
    assert Density(20, 120) == 20.0 / 60.0;
    assert Classify(20.0 / 60.0, 2) == GoodFit;
  }
}
