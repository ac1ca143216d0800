/**
 * Small pure helpers of backend/src/shared/shared.ts (repeated in
 * backend/src/index.ts): stripping one pair of parentheses, composing a
 * screening id, classifying a screening's city and type, and extracting ids
 * from festival URLs.
 */
module Screening {
  import opened Wrappers
  import opened JsText

  /** `removeParenthesis`: drops one outer `(`…`)` pair, otherwise leaves the text alone. */
  function RemoveParenthesis(s: string): (r: string)
    ensures StartsWith(s, "(") && EndsWith(s, ")") ==> |s| >= 2 && s == "(" + r + ")"
    ensures !(StartsWith(s, "(") && EndsWith(s, ")")) ==> r == s
  {
    if StartsWith(s, "(") && EndsWith(s, ")") then
      assert s[0] == s[..1][0] == '(';
      assert s[|s| - 1] == s[|s| - 1..][0] == ')';
      s[1..|s| - 1]
    else s
  }

  /** Wrapping any text in parentheses and stripping them gives the text back. */
  lemma RemoveParenthesisInverse(s: string)
    ensures RemoveParenthesis("(" + s + ")") == s
  {
    var w := "(" + s + ")";
    assert StartsWith(w, "(") && EndsWith(w, ")") by {
      assert w[..1] == "(";
      assert w[|w| - 1..] == ")";
    }
  }

  /** Only the outer pair is stripped: stripping is not repeated. */
  lemma RemoveParenthesisOnce(s: string)
    ensures RemoveParenthesis("((" + s + "))") == "(" + s + ")"
  {
    RemoveParenthesisInverse("(" + s + ")");
    assert "(" + ("(" + s + ")") + ")" == "((" + s + "))";
  }

  /** A word that does not open with `(` is read from itself or from itself in parentheses, and from nothing else. */
  lemma RemoveParenthesisYields(t: string, word: string)
    requires word == [] || word[0] != '('
    ensures RemoveParenthesis(t) == word <==> t == "(" + word + ")" || t == word
  {
    if t == "(" + word + ")" {
      RemoveParenthesisInverse(word);
    } else if t == word {
      assert !StartsWith(t, "(") by {
        if t != [] { assert t[..1][0] == t[0]; }
      }
    }
  }

  const IdSeparator: string := " - "

  /** The id under which a screening is stored: its four listing cells joined by ` - `. */
  function ScreeningId(title: string, dateString: string, timeRangeString: string, location: string): (id: string)
    ensures StartsWith(id, title + IdSeparator)
    ensures EndsWith(id, IdSeparator + location)
    ensures |id| == |title| + |dateString| + |timeRangeString| + |location| + 3 * |IdSeparator|
    ensures var d := |title| + |IdSeparator|;
      id[d..d + |dateString|] == dateString && id[d + |dateString|..d + |dateString| + |IdSeparator|] == IdSeparator
    ensures var t := |title| + |dateString| + 2 * |IdSeparator|;
      id[t..t + |timeRangeString|] == timeRangeString && id[t + |timeRangeString|..t + |timeRangeString| + |IdSeparator|] == IdSeparator
  {
    var id := title + IdSeparator + dateString + IdSeparator + timeRangeString + IdSeparator + location;
    assert id[..|title + IdSeparator|] == title + IdSeparator;
    assert id[|id| - |IdSeparator + location|..] == IdSeparator + location;
    id
  }

  /** The id does not determine its parts: a title containing ` - ` collides with another split. */
  lemma ScreeningIdNotInjective()
    ensures ScreeningId("A - B", "C", "D", "E") == ScreeningId("A", "B - C", "D", "E")
  {
  }

  const ParkCity: string := "Park City"
  const SundanceMountainResort: string := "Sundance Mountain Resort"
  const SaltLakeCity: string := "Salt Lake City"
  const Premiere: string := "Premiere"
  const SecondScreening: string := "Second Screening"

  predicate IsInParkCity(location: string) {
    EndsWith(location, ParkCity) || EndsWith(location, SundanceMountainResort)
  }

  predicate IsInSaltLakeCity(location: string) {
    EndsWith(location, SaltLakeCity)
  }

  /** No location is classified as both Park City and Salt Lake City. */
  lemma {:induction false} CitiesExclusive(location: string)
    ensures !(IsInParkCity(location) && IsInSaltLakeCity(location))
  {
    if IsInSaltLakeCity(location) {
      var n := |location|;
      assert location[n - 1] == 'y' && location[n - 9] == 'L';
    }
  }

  /** The screening type as shown: the second paragraph of the time cell without its parentheses, or empty. */
  datatype ScreeningKind = ScreeningKind(screeningType: string, isPremiere: bool, isSecondScreening: bool)

  function ClassifyScreeningType(typeText: Option<string>): (k: ScreeningKind)
    ensures typeText.None? ==> k.screeningType == ""
    ensures typeText.Some? ==> k.screeningType == RemoveParenthesis(typeText.value)
    ensures k.isPremiere <==> k.screeningType == Premiere
    ensures k.isSecondScreening <==> k.screeningType == SecondScreening
    ensures !(k.isPremiere && k.isSecondScreening)
  {
    var screeningType := if typeText.Some? then RemoveParenthesis(typeText.value) else "";
    ScreeningKind(screeningType, screeningType == Premiere, screeningType == SecondScreening)
  }

  /** Exactly the labels `(Premiere)` and `Premiere` classify as a premiere, and likewise for a second screening. */
  lemma PremiereLabel(t: string)
    ensures ClassifyScreeningType(Some(t)).isPremiere <==> t == "(" + Premiere + ")" || t == Premiere
    ensures ClassifyScreeningType(Some(t)).isSecondScreening <==> t == "(" + SecondScreening + ")" || t == SecondScreening
  {
    RemoveParenthesisYields(t, Premiere);
    RemoveParenthesisYields(t, SecondScreening);
  }

  // ---------------------------------------------------------------------
  // URL ids. The patterns are regular expressions built from the URLs, so
  // the dots of the host name match any character but a line terminator,
  // and the match may start anywhere in the text (leftmost match wins).

  const ProgramUrl: string := "https://festival.sundance.org/program"
  const FilmPattern: string := ProgramUrl + "/film/"
  const ShortsPattern: string := ProgramUrl + "/short-info/"

  function FilmUrl(filmId: string): string {
    FilmPattern + filmId
  }

  function ShortsInfoUrl(shortsId: string): string {
    ShortsPattern + shortsId
  }

  predicate IsLineTerminator(c: char) {
    c == '\n' || c == '\r' || c == '\U{2028}' || c == '\U{2029}'
  }

  predicate IsIdChar(c: char) {
    'a' <= c <= 'z' || 'A' <= c <= 'Z' || '0' <= c <= '9'
  }

  /** The pattern's literal text occurs at `i`, a `.` in the pattern matching any non-terminator. */
  predicate LiteralAt(text: string, i: nat, pattern: string) {
    i + |pattern| <= |text| &&
    forall k | 0 <= k < |pattern| ::
      if pattern[k] == '.' then !IsLineTerminator(text[i + k]) else text[i + k] == pattern[k]
  }

  /** Length of the run of id characters starting at `j` (what a greedy `[a-zA-Z0-9]+` takes). */
  function IdRun(text: string, j: nat): (n: nat)
    requires j <= |text|
    ensures j + n <= |text|
    ensures forall k | j <= k < j + n :: IsIdChar(text[k])
    ensures j + n == |text| || !IsIdChar(text[j + n])
    decreases |text| - j
  {
    if j < |text| && IsIdChar(text[j]) then 1 + IdRun(text, j + 1) else 0
  }

  /** The pattern followed by at least one id character matches at `i`. */
  predicate MatchesAt(text: string, i: nat, pattern: string) {
    LiteralAt(text, i, pattern) && IdRun(text, i + |pattern|) > 0
  }

  /** The captured id of a match at `i`. */
  function CapturedId(text: string, i: nat, pattern: string): string
    requires LiteralAt(text, i, pattern)
  {
    text[i + |pattern|..i + |pattern| + IdRun(text, i + |pattern|)]
  }

  /** The leftmost start at or after `from` where one of the patterns matches. */
  function FirstMatch(text: string, from: nat, patterns: seq<string>): (r: Option<(nat, nat)>)
    ensures r.Some? ==> from <= r.value.0 && r.value.1 < |patterns| && MatchesAt(text, r.value.0, patterns[r.value.1])
    ensures r.Some? ==> forall k | 0 <= k < r.value.1 :: !MatchesAt(text, r.value.0, patterns[k])
    ensures r.Some? ==> forall i, p | from <= i < r.value.0 && 0 <= p < |patterns| :: !MatchesAt(text, i, patterns[p])
    ensures r.None? ==> forall i, p | from <= i && 0 <= p < |patterns| :: !MatchesAt(text, i, patterns[p])
    decreases |text| - from
  {
    if from >= |text| then
      assert forall i, p | from <= i && 0 <= p < |patterns| :: !MatchesAt(text, i, patterns[p]) by {
        forall i, p | from <= i && 0 <= p < |patterns| ensures !MatchesAt(text, i, patterns[p]) {
          if LiteralAt(text, i, patterns[p]) {
            assert i + |patterns[p]| == |text|;
          }
        }
      }
      None
    else
      var p := FirstPattern(text, from, patterns, 0);
      if p < |patterns| then Some((from, p)) else FirstMatch(text, from + 1, patterns)
  }

  /** The first pattern (from index `p` on) matching at `i`, or `|patterns|`. */
  function FirstPattern(text: string, i: nat, patterns: seq<string>, p: nat): (q: nat)
    requires p <= |patterns|
    ensures p <= q <= |patterns|
    ensures q < |patterns| ==> MatchesAt(text, i, patterns[q])
    ensures forall k | p <= k < q :: !MatchesAt(text, i, patterns[k])
    decreases |patterns| - p
  {
    if p == |patterns| then p
    else if MatchesAt(text, i, patterns[p]) then p
    else FirstPattern(text, i, patterns, p + 1)
  }

  datatype EventType = Film | Shorts

  /** `getEventIdFromUrl`: the kind of event and its id, from the leftmost film or shorts link. */
  function GetEventIdFromUrl(url: string): (r: Result<(EventType, string), string>)
    ensures r.Err? <==> forall i: nat :: !MatchesAt(url, i, FilmPattern) && !MatchesAt(url, i, ShortsPattern)
    ensures r.Err? ==> r.error == "invalid film or shorts url: " + url
    ensures r.Ok? ==> r.value.1 != [] && forall c | c in r.value.1 :: IsIdChar(c)
  {
    match FirstMatch(url, 0, [FilmPattern, ShortsPattern])
    case None =>
      assert forall i: nat :: !MatchesAt(url, i, [FilmPattern, ShortsPattern][0]) && !MatchesAt(url, i, [FilmPattern, ShortsPattern][1]);
      Err("invalid film or shorts url: " + url)
    case Some((i, p)) =>
      var patterns := [FilmPattern, ShortsPattern];
      assert MatchesAt(url, i, patterns[p]);
      var id := CapturedId(url, i, patterns[p]);
      Ok((if p == 0 then Film else Shorts, id))
  }

  /** `getFilmIdFromUrl`: the id after the leftmost film link. */
  function GetFilmIdFromUrl(url: string): (r: Result<string, string>)
    ensures r.Err? <==> forall i: nat :: !MatchesAt(url, i, FilmPattern)
    ensures r.Err? ==> r.error == "failed to parse film id"
    ensures r.Ok? ==> r.value != [] && forall c | c in r.value :: IsIdChar(c)
  {
    match FirstMatch(url, 0, [FilmPattern])
    case None =>
      assert forall i: nat :: !MatchesAt(url, i, [FilmPattern][0]);
      Err("failed to parse film id")
    case Some((i, _)) => Ok(CapturedId(url, i, FilmPattern))
  }

  /** `getShortsIdFromUrl`: the id after the leftmost shorts link. */
  function GetShortsIdFromUrl(url: string): (r: Result<string, string>)
    ensures r.Err? <==> forall i: nat :: !MatchesAt(url, i, ShortsPattern)
    ensures r.Err? ==> r.error == "failed to parse shorts id"
    ensures r.Ok? ==> r.value != [] && forall c | c in r.value :: IsIdChar(c)
  {
    match FirstMatch(url, 0, [ShortsPattern])
    case None =>
      assert forall i: nat :: !MatchesAt(url, i, [ShortsPattern][0]);
      Err("failed to parse shorts id")
    case Some((i, _)) => Ok(CapturedId(url, i, ShortsPattern))
  }

  predicate IsId(id: string) {
    id != [] && forall c | c in id :: IsIdChar(c)
  }

  /** A pattern matches at the start of itself followed by an id, and captures the whole id. */
  lemma {:induction false} PatternMatchesOwnUrl(pattern: string, id: string)
    requires IsId(id)
    ensures LiteralAt(pattern + id, 0, pattern)
    ensures MatchesAt(pattern + id, 0, pattern)
    ensures CapturedId(pattern + id, 0, pattern) == id
  {
    var url := pattern + id;
    assert forall k | 0 <= k < |pattern| :: url[k] == pattern[k];
    assert LiteralAt(url, 0, pattern) by {
      forall k | 0 <= k < |pattern|
        ensures if pattern[k] == '.' then !IsLineTerminator(url[k]) else url[k] == pattern[k]
      {
        assert url[k] == pattern[k];
      }
    }
    IdRunToEnd(url, |pattern|);
    assert url[|pattern|..] == id;
  }

  lemma {:induction false} IdRunToEnd(text: string, j: nat)
    requires j <= |text|
    requires forall k | j <= k < |text| :: IsIdChar(text[k])
    ensures IdRun(text, j) == |text| - j
    decreases |text| - j
  {
    if j < |text| {
      IdRunToEnd(text, j + 1);
    }
  }

  /** Round trip: the id is read back from the film URL built from it. */
  lemma FilmUrlRoundTrip(filmId: string)
    requires IsId(filmId)
    ensures GetFilmIdFromUrl(FilmUrl(filmId)) == Ok(filmId)
    ensures GetEventIdFromUrl(FilmUrl(filmId)) == Ok((Film, filmId))
  {
    PatternMatchesOwnUrl(FilmPattern, filmId);
  }

  /** Round trip: the id is read back from the shorts URL built from it. */
  lemma ShortsUrlRoundTrip(shortsId: string)
    requires IsId(shortsId)
    ensures GetShortsIdFromUrl(ShortsInfoUrl(shortsId)) == Ok(shortsId)
    ensures GetEventIdFromUrl(ShortsInfoUrl(shortsId)) == Ok((Shorts, shortsId))
  {
    PatternMatchesOwnUrl(ShortsPattern, shortsId);
    var url := ShortsInfoUrl(shortsId);
    assert !LiteralAt(url, 0, FilmPattern) by {
      assert url[38] == ShortsPattern[38] == 's';
      assert FilmPattern[38] == 'f';
    }
    assert FirstPattern(url, 0, [FilmPattern, ShortsPattern], 0) == 1;
  }
}
