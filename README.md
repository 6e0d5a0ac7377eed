# Suno Prompt Architect: a verified model of its text and scoring logic

Suno Prompt Architect is a single-page tool. It sends an audio track to a
hosted generative model and gets back a JSON description of the track: genre,
tempo (BPM), vocal articulation rating, instruments, prompt tags and mood.
It then judges whether the user's lyrics fit that tempo and vocal style.
Almost all of `app.py` is page layout and the call to the hosted model. This
project models the deterministic logic inside it:

- **Number extraction** (`NumberExtraction`): `extract_number` turns a
  loosely formatted field such as `"4/10 (High)"` or `"128 BPM"` into an
  integer. A number passes through unchanged. Text yields the value of its
  first maximal run of ASCII digits, or 0 when it has no digit. A minus sign
  in text is ignored, so `"-5"` gives 5, while the number -5 stays -5.
- **Fence stripping** (`FenceStripping`): the raw answer goes through
  `replace("```json", "")` and then `replace("```", "")`. `ReplaceAll` models
  Python's `str.replace` exactly: it scans left to right, matches do not
  overlap, and with an empty pattern the replacement is inserted before
  every character and once at the end.
- **Lyric-fit scoring** (`LyricFit`): the inline block of the compatibility
  panel becomes `ScoreFit(lyrics, bpm, art)`. It counts vowels
  case-insensitively. A tempo that is not positive is replaced by 120. The
  density is vowels divided by half the tempo. The first matching branch of
  the if/elif chain gives one of five verdicts, each with a fixed progress
  value (20, 90, 50, 100, 70). Empty lyrics give no score. A tempo too large
  to convert to a float (at least 2^1024 - 2^970) makes `safe_bpm * 0.5`
  raise `OverflowError`, which ends the request in the error handler.
- **Request flow** (`Analysis`): one press of "Analyze Audio". The raw
  answer is stripped and parsed. The page then reads its keys in a fixed
  order, extracts tempo and articulation, and scores the lyrics. Every
  failure lands in the single catch-all error handler.

All of it is pure, so the model uses datatypes, functions and lemmas only.
The hosted model's answer and the JSON parser are parameters.

Some behaviours of the code may surprise a reader. The model follows the
code in each of them:

- The articulation rating is not clamped to [0, 10]. `"42/10"` gives 42 (`ExtractedValuesNotClamped`).
- A numeric tempo may be negative. It is shown as it is and scores as 120 (`ExtractedValuesNotClamped`, `NonPositiveBpmScoresAsDefault`).
- The `instruments` key is never read, so a missing `instruments` is not an error (`InstrumentsNotRequired`).
- A missing `suno_tags`, `genre_specific` or `vibe_description` is not replaced by an empty text. Reading it raises `KeyError` (app.py:104, 113, 115), which ends the request in the error handler (`MissingKey`, `AnalyzeParsedAnswer`).
- The scoring step can fail. A tempo of 2^1024 - 2^970 or more makes `safe_bpm * 0.5` raise `OverflowError` at app.py:123 (`Fit.TempoOverflow`, `Error.TempoTooLarge`, `TempoOverflowBoundary`).
- Text gives the value of its first digit run and ignores a minus sign, so `"-5"` gives 5 while the number -5 gives -5 (`ExtractNumberTextExamples`, `ExtractNumberDefaultExamples`).

## Model

| member | source | states |
|---|---|---|
| `NumberExtraction.ExtractNumber` | app.py:31-36 | a number is returned unchanged (negative numbers included); text always yields a non-negative value, and 0 when it holds no digit |
| `NumberExtraction.FirstRun` | app.py:35 | the search finds nothing exactly when the text has no digit; otherwise it returns the bounds of the first maximal digit run (no digit before it, only digits in it, no digit right after it) |
| `NumberExtraction.SkipNonDigits` | app.py:35 | the scan stops at the first digit at or after the start, passing only non-digits |
| `NumberExtraction.SkipDigits` | app.py:35 | the scan stops at the first non-digit at or after the start, passing only digits, so the run is maximal |
| `NumberExtraction.FirstRunUnique` | app.py:35 | a text has at most one first maximal digit run, so the leftmost greedy match is well defined |
| `NumberExtraction.ExtractNumberIsFirstRun` | app.py:35-36 | for every text, the extracted value is the decimal value of its first maximal digit run |
| `NumberExtraction.DecimalRoundTrip` | app.py:36 | `DigitsValue` models `int()` on the matched digits; reading back the decimal rendering of a non-negative number with it gives the number (`int(str(n)) == n`) |
| `NumberExtraction.ExtractNumberOfRendered` | app.py:35-36 | a number written after digit-free text and before a non-digit is exactly what extraction returns |
| `NumberExtraction.TextAfterFirstRunIgnored` | app.py:35-36 | once a text holds a digit and ends in a non-digit, nothing appended to it changes the result |
| `NumberExtraction.ExtractNumberTextExamples` | app.py:32-36 | `"4/10 (High)"` gives 4, `"128 BPM"` gives 128, `"-5"` gives 5 |
| `NumberExtraction.ExtractNumberDefaultExamples` | app.py:33-36 | `"N/A"` and `""` give 0; the number -5 gives -5 |
| `FenceStripping.StripFences` | app.py:95 | the cleaned text contains no "```" anywhere |
| `FenceStripping.ReplaceAbsent` | app.py:95 | `ReplaceAll` models `str.replace`; replacing a non-empty pattern that does not occur leaves the text unchanged |
| `FenceStripping.ReplaceAfterPlainPrefix` | app.py:95 | a prefix without the pattern's first character passes through replacement untouched |
| `FenceStripping.RemovalKeepsPlainHead` | app.py:95 | removing "```" keeps a leading character that is not a backtick |
| `FenceStripping.RemovalOpensWithoutDoubleTick` | app.py:95 | removing "```" from text that does not open with two backticks gives text that does not open with two backticks either |
| `FenceStripping.ConsWithoutFence` | app.py:95 | a character put in front of fence-free text creates a fence only by becoming the third of three backticks |
| `FenceStripping.RemovingFenceLeavesNone` | app.py:95 | after every "```" is removed left to right, no "```" is left, even where removals bring backticks together |
| `FenceStripping.StripWithoutBacktick` | app.py:95 | a text with no backtick is returned unchanged |
| `FenceStripping.StripIdempotent` | app.py:95 | cleaning cleaned text changes nothing |
| `FenceStripping.StripWrapped` | app.py:95 | a backtick-free payload wrapped as "```json" payload "```" comes out as the bare payload |
| `LyricFit.CountVowels` | app.py:121 | the vowel count is at most the length of the lyrics |
| `LyricFit.CountVowelsAppend` | app.py:121 | the vowel count of two joined texts is the sum of their counts |
| `LyricFit.CountVowelsIsVowelPositions` | app.py:121 | `IsVowel` models `char.lower() in 'aeiou'`; the vowel count equals the number of positions whose character lowercases to a, e, i, o or u |
| `LyricFit.SafeBpm` | app.py:122 | the tempo used for density is always positive; it is the tempo when that is positive and 120 otherwise |
| `LyricFit.Density` | app.py:123 | the density is never negative |
| `LyricFit.Progress` | app.py:128-147 | every verdict shows a progress value between 20 and 100 |
| `LyricFit.ScoreFit` | app.py:120-149 | there is no score exactly when the lyrics are empty; non-empty lyrics with a tempo used of at least 2^1024 - 2^970 raise the float overflow of `safe_bpm * 0.5`; a score's density is never negative |
| `LyricFit.DensityAbove` | app.py:123-139 | density above a whole-number threshold t holds exactly when twice the vowel count exceeds t times the tempo used |
| `LyricFit.ScoreFitByCounts` | app.py:121-147 | `Classify` models the if/elif chain on the density; for all scored lyrics its verdict is the integer classification: rating below 4 gives HighRisk iff vowels > 5 × tempo, else GoodFit; rating above 7 gives PacingAlert iff vowels > 6 × tempo, else CleanMatch; otherwise Balanced |
| `LyricFit.NonPositiveBpmScoresAsDefault` | app.py:122-123 | every tempo that is not positive scores exactly like 120 |
| `LyricFit.MoreVowelsNeverRaiseProgress` | app.py:121-147 | at fixed tempo and rating, two non-empty lyrics are both scored or both overflow, and the one with at least as many vowels never shows a higher progress value |
| `LyricFit.LongerLyricsNeverRaiseProgress` | app.py:121-147 | appending text to non-empty lyrics keeps them scored (or overflowing) and never raises the progress value |
| `LyricFit.MiddleArticulationIsBalanced` | app.py:145-147 | a scored rating from 4 to 7 is Balanced whatever the lyrics and tempo |
| `LyricFit.TempoOverflowBoundary` | app.py:122-123 | for non-empty lyrics, a tempo of exactly 2^1024 - 2^970 overflows and one less is scored |
| `LyricFit.ScoreFitExamples` | app.py:120-123 | empty lyrics give no score; twenty vowels at tempo 0 score like at 120 |
| `LyricFit.TwentyVowelsExample` | app.py:121-135 | twenty vowels at 120 BPM with rating 2 give density 20/60 and GoodFit |
| `Analysis.Normalize` | app.py:96-115 | reading succeeds exactly when all five read keys are present; otherwise the error names the first missing key in reading order; on success tempo and rating are the extracted numbers and the text fields are kept |
| `Analysis.AnalyzeResponse` | app.py:94-153 | the outcome is `NoResponse` exactly when there is no answer and `ParseError` exactly when the cleaned answer does not parse; the tempo overflow needs non-empty lyrics; a successful report has no score exactly when the lyrics are empty, and otherwise the verdict of the integer classification on the vowel count, the tempo used and the rating of its profile |
| `Analysis.AnalyzeParsedAnswer` | app.py:96-153 | once the cleaned answer parses to an object: success exactly when all five read keys are present and the lyrics are empty or the tempo used converts to a float; `MissingKey(k)` exactly when k is the first read key that is absent; on success the profile's tempo and rating are the numbers extracted from "bpm" and "articulation_score" |
| `Analysis.AnalyzeCleanedResponse` | app.py:95-96 | an answer that was already cleaned is analysed the same as the original answer |
| `Analysis.AnalyzeFencedResponse` | app.py:95-96 | a backtick-free payload wrapped in a json fence is analysed as the bare payload |
| `Analysis.InstrumentsNotRequired` | app.py:99-115 | removing the "instruments" key never changes the outcome of reading the object |
| `Analysis.ExtractedValuesNotClamped` | app.py:99-100 | a rating of "42/10" is read as 42 and a tempo of -5 stays -5: nothing is clamped |

## Left out

- `analyze_track` (app.py:55-86) is not modelled. It configures the hosted model, writes `temp.mp3`, uploads it and calls the model, which is network, file I/O and foreign code. Its result is the parameter `raw`, which is `None` when no API key was given.
- `json.loads` (app.py:96) is the parameter `parse`. A result that is not an object is a `ParseError`, like text that does not parse. Both reach the same handler.
- The page itself is not modelled: layout, CSS, widgets, metrics HTML, messages, and `round(density, 2)` for display. This includes the part of the page shown before a missing key raises, such as the tags and metrics drawn before a missing `genre_specific`.
- JSON field values are integers or text. Python would pass a float through `int()`, which truncates, and would read a boolean as 0 or 1. Null, lists and objects go through `str()` and can be given as `Str` of their Python text.
- Density is an exact rational number, not a binary float. The two threshold tests agree with the float ones except for tempos above about 10^15. Only the overflow of `safe_bpm * 0.5` is modelled as an error; the vowel count would need more than 10^308 characters to overflow.
- JSON values `NaN`, `Infinity` and `-Infinity`, which `json.loads` accepts, are not modelled, since floats are not field values here. Given as a tempo or rating, `int()` at app.py:34 raises `ValueError` or `OverflowError`, and the handler at app.py:151-153 catches it.
- Digits and vowels are ASCII only. Python's `\d`, `int()` and `str.lower()` also accept other Unicode digits and letters.
- ExtractNumber: returns the value of a digit run of any length. Recent CPython versions raise `ValueError` when `int()` is given more than 4300 digits. The handler at app.py:151-153 would catch it; that case is not modelled. A JSON integer that long is already refused by the parser.
