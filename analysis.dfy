/**
 * The request flow of app.py (lines 94-153) around the three pure pieces:
 * the raw answer is fence-stripped, parsed, its fields are read, the two
 * numeric ones are extracted, and the lyric fit is scored from them. Every
 * failure on the way ends in the single error message of the catch-all
 * handler.
 */
module Analysis {
  import opened Wrappers
  import opened NumberExtraction
  import opened FenceStripping
  import opened LyricFit

  /** The object the JSON parser returns, as a map from key to field value. */
  type Record = map<string, Value>

  /** The fields the page reads, with tempo and articulation already extracted. */
  datatype Profile = Profile(bpm: int, articulation: int, tags: Value, genre: Value, vibe: Value)

  datatype Report = Report(profile: Profile, fit: Fit)

  datatype Error =
    | NoResponse              // analyze_track returned None (no API key)
    | ParseError              // the cleaned text is not a JSON object
    | MissingKey(key: string) // the first key the page reads that the object lacks
    | TempoTooLarge           // the tempo is too large to convert to a float (OverflowError)

  /** The keys in the order the page reads them. */
  const ReadOrder: seq<string> := ["bpm", "articulation_score", "suno_tags", "genre_specific", "vibe_description"]

  /**
   * Reading the parsed object: the first key of ReadOrder that is missing
   * raises, otherwise the tempo and the rating are extracted and the other
   * fields kept as they are. The articulation rating is not clamped.
   */
  function Normalize(data: Record): (r: Result<Profile, Error>)
    ensures r.Ok? <==> forall i :: 0 <= i < |ReadOrder| ==> ReadOrder[i] in data
    ensures r.Err? ==> exists i :: 0 <= i < |ReadOrder| && r.error == MissingKey(ReadOrder[i])
                                   && ReadOrder[i] !in data
                                   && forall j :: 0 <= j < i ==> ReadOrder[j] in data
    ensures r.Ok? ==> && "bpm" in data && r.value.bpm == ExtractNumber(data["bpm"])
                      && "articulation_score" in data
                      && r.value.articulation == ExtractNumber(data["articulation_score"])
                      && "suno_tags" in data && r.value.tags == data["suno_tags"]
                      && "genre_specific" in data && r.value.genre == data["genre_specific"]
                      && "vibe_description" in data && r.value.vibe == data["vibe_description"]
  {
    assert ReadOrder[0] == "bpm" && ReadOrder[1] == "articulation_score" && ReadOrder[2] == "suno_tags";
    assert ReadOrder[3] == "genre_specific" && ReadOrder[4] == "vibe_description";
    if "bpm" !in data then Err(MissingKey("bpm"))
    else if "articulation_score" !in data then Err(MissingKey("articulation_score"))
    else if "suno_tags" !in data then Err(MissingKey("suno_tags"))
    else if "genre_specific" !in data then Err(MissingKey("genre_specific"))
    else if "vibe_description" !in data then Err(MissingKey("vibe_description"))
    else
      Ok(Profile(ExtractNumber(data["bpm"]), ExtractNumber(data["articulation_score"]),
                 data["suno_tags"], data["genre_specific"], data["vibe_description"]))
  }

  /**
   * One press of "Analyze Audio": the raw answer (None when no API key was
   * given), the JSON parser, and the lyrics from the sidebar.
   */
  function AnalyzeResponse(raw: Option<string>, parse: string -> Option<Record>, lyrics: string): (r: Result<Report, Error>)
    ensures r == Err(NoResponse) <==> raw.None?
    ensures r == Err(ParseError) <==> raw.Some? && parse(StripFences(raw.value)).None?
    ensures r == Err(TempoTooLarge) ==> lyrics != []
    ensures r.Ok? ==> (r.value.fit.NoLyrics? <==> lyrics == [])
    ensures r.Ok? && lyrics != [] ==>
              && r.value.fit.Scored?
              && r.value.fit.verdict == ClassifyByCounts(CountVowels(lyrics), SafeBpm(r.value.profile.bpm),
                                                         r.value.profile.articulation)
  {
    match raw
    case None => Err(NoResponse)
    case Some(text) =>
      match parse(StripFences(text))
      case None => Err(ParseError)
      case Some(data) =>
        match Normalize(data)
        case Err(e) => Err(e)
        case Ok(p) =>
          var fit := ScoreFit(lyrics, p.bpm, p.articulation);
          ScoreFitByCounts(lyrics, p.bpm, p.articulation);
          if fit.TempoOverflow? then Err(TempoTooLarge) else Ok(Report(p, fit))
  }

  /** The keys of ReadOrder are pairwise different. */
  lemma ReadOrderDistinct()
    ensures forall i, j :: 0 <= i < j < |ReadOrder| ==> ReadOrder[i] != ReadOrder[j]
  {
  }

  /**
   * Once the cleaned answer parses to an object, the outcome is decided by
   * which keys it has: success exactly when all read keys are present, the
   * error for a key exactly when it is the first missing one, and on success
   * a profile of the extracted tempo and rating.
   */
  lemma AnalyzeParsedAnswer(raw: string, parse: string -> Option<Record>, lyrics: string, data: Record)
    requires parse(StripFences(raw)) == Some(data)
    ensures var r := AnalyzeResponse(Some(raw), parse, lyrics);
            r.Ok? <==> (forall i :: 0 <= i < |ReadOrder| ==> ReadOrder[i] in data)
                       && (lyrics == [] || SafeBpm(ExtractNumber(data["bpm"])) < FloatOverflowBound)
    ensures forall i :: 0 <= i < |ReadOrder| ==>
              (AnalyzeResponse(Some(raw), parse, lyrics) == Err(MissingKey(ReadOrder[i])) <==>
                 ReadOrder[i] !in data && forall j :: 0 <= j < i ==> ReadOrder[j] in data)
    ensures var r := AnalyzeResponse(Some(raw), parse, lyrics);
            r.Ok? ==> && r.value.profile.bpm == ExtractNumber(data["bpm"])
                      && r.value.profile.articulation == ExtractNumber(data["articulation_score"])
  {
    ReadOrderDistinct();
    var r := AnalyzeResponse(Some(raw), parse, lyrics);
    var n := Normalize(data);
    forall i | 0 <= i < |ReadOrder|
      ensures r == Err(MissingKey(ReadOrder[i])) <==>
                ReadOrder[i] !in data && forall j :: 0 <= j < i ==> ReadOrder[j] in data
    {
      if n.Err? {
        var k :| 0 <= k < |ReadOrder| && n.error == MissingKey(ReadOrder[k])
                 && ReadOrder[k] !in data && forall j :: 0 <= j < k ==> ReadOrder[j] in data;
        assert r == Err(MissingKey(ReadOrder[k]));
        if i < k {
          assert ReadOrder[i] in data;
        } else if k < i {
          assert ReadOrder[i] != ReadOrder[k];
        }
      }
    }
  }

  /** Analysing an answer that was already cleaned gives the same outcome: cleaning is idempotent. */
  lemma AnalyzeCleanedResponse(raw: string, parse: string -> Option<Record>, lyrics: string)
    ensures AnalyzeResponse(Some(StripFences(raw)), parse, lyrics) == AnalyzeResponse(Some(raw), parse, lyrics)
  {
    StripIdempotent(raw);
  }

  /** A payload wrapped in ```json ... ``` is analysed as the bare payload. */
  lemma AnalyzeFencedResponse(body: string, parse: string -> Option<Record>, lyrics: string)
    requires '`' !in body
    ensures AnalyzeResponse(Some(JsonFence + body + Fence), parse, lyrics) == AnalyzeResponse(Some(body), parse, lyrics)
  {
    StripWrapped(body);
    StripWithoutBacktick(body);
  }

  /** The "instruments" key is never read, so its absence changes nothing. */
  lemma InstrumentsNotRequired(data: Record)
    ensures Normalize(data - {"instruments"}) == Normalize(data)
  {
  }

  /** A rating above 10 stays above 10, and a negative tempo stays negative. */
  lemma ExtractedValuesNotClamped(tags: Value, genre: Value, vibe: Value)
    ensures var data := map["bpm" := Num(-5), "articulation_score" := Str("42/10"),
                            "suno_tags" := tags, "genre_specific" := genre, "vibe_description" := vibe];
            Normalize(data) == Ok(Profile(-5, 42, tags, genre, vibe))
  {
    var s := "42/10";
    assert !IsDigit(s[2]);
    ExtractNumberIsFirstRun(s, 0, 2);
    assert s[0..2] == "42" && s[0..2][..1] == "4";
  }
}
