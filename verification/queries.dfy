/**
 * The read-side queries: `getScreenings` and `pruneFilmInfo` in
 * backend/src/shared/shared.ts, and the `getFilms`/`getCategories` pipelines
 * of backend/src/controllers/MainController.ts. Every stage is one run of the
 * search combinator or a boolean filter; the screenings query may end with a
 * sort by start time.
 */
module Queries {
  import opened Wrappers
  import opened JsText
  import opened Seqs
  import opened Search
  import opened Store

  // ---------------------------------------------------------------------
  // Film records as the queries see them.

  datatype Panelist = Panelist(name: string, description: string)

  datatype Credit = Credit(name: string, values: seq<string>)

  datatype FilmBasicInfo = FilmBasicInfo(tagLine: Option<string>, updatedAt: int)

  /** The stored details of a film; `panelist` and `credits` are absent when empty. */
  datatype FilmMoreInfo = FilmMoreInfo(
    category: string,
    tags: seq<string>,
    panelist: Option<Panelist>,
    credits: Option<seq<Credit>>,
    description: Option<string>,
    updatedAt: int)

  datatype FilmInfo = FilmInfo(
    id: string,
    title: string,
    isShorts: bool,
    url: string,
    basicInfo: Option<FilmBasicInfo>,
    moreInfo: Option<FilmMoreInfo>)

  // ---------------------------------------------------------------------
  // pruneFilmInfo.

  datatype Verbosity = Essential | Basic | Short | Tags | Credits | Verbose

  /** Position on the verbosity ladder. */
  function Rank(v: Verbosity): nat {
    match v
    case Essential => 0
    case Basic => 1
    case Short => 2
    case Tags => 3
    case Credits => 4
    case Verbose => 5
  }

  /** The film details as pruned: the whole record, or a summary whose absent parts are `None`. */
  datatype PrunedMore =
    | Full(info: FilmMoreInfo)
    | Summary(category: string, updatedAt: int, panelistName: Option<string>,
              tags: Option<seq<string>>, credits: Option<seq<Credit>>)

  datatype PrunedFilm = PrunedFilm(
    id: string,
    title: Option<string>,
    isShorts: bool,
    url: string,
    basicInfo: Option<FilmBasicInfo>,
    moreInfo: Option<PrunedMore>)

  /**
   * `pruneFilmInfo`: the identity always stays, the title goes iff `noTitle`,
   * `essential` drops both detail records, `verbose` keeps the details
   * whole, and in between each rung of the ladder adds one more part.
   */
  function PruneFilmInfo(film: FilmInfo, verbosity: Verbosity, noTitle: bool): (r: PrunedFilm)
    ensures r.id == film.id && r.isShorts == film.isShorts && r.url == film.url
    ensures r.title.None? <==> noTitle
    ensures r.title.Some? ==> r.title.value == film.title
    ensures r.basicInfo.Some? <==> Rank(verbosity) >= Rank(Basic) && film.basicInfo.Some?
    ensures r.basicInfo.Some? ==> r.basicInfo == film.basicInfo
    ensures r.moreInfo.Some? <==> Rank(verbosity) >= Rank(Basic) && film.moreInfo.Some?
    ensures r.moreInfo.Some? ==> (r.moreInfo.value.Full? <==> verbosity == Verbose)
    ensures r.moreInfo.Some? && r.moreInfo.value.Full? ==> r.moreInfo.value.info == film.moreInfo.value
    ensures r.moreInfo.Some? && r.moreInfo.value.Summary? ==>
      var m, p := film.moreInfo.value, r.moreInfo.value;
      p.category == m.category && p.updatedAt == m.updatedAt &&
      (p.panelistName.Some? <==> Rank(verbosity) >= Rank(Short) && m.panelist.Some?) &&
      (p.panelistName.Some? ==> p.panelistName.value == m.panelist.value.name) &&
      (p.tags.Some? <==> Rank(verbosity) >= Rank(Tags)) &&
      (p.tags.Some? ==> p.tags.value == m.tags) &&
      (p.credits == if Rank(verbosity) >= Rank(Credits) then m.credits else None)
  {
    var more :=
      if verbosity == Essential || film.moreInfo.None? then None
      else if verbosity == Verbose then Some(Full(film.moreInfo.value))
      else
        var m := film.moreInfo.value;
        Some(Summary(m.category, m.updatedAt,
          if verbosity != Basic && m.panelist.Some? then Some(m.panelist.value.name) else None,
          if verbosity != Basic && verbosity != Short then Some(m.tags) else None,
          if verbosity != Basic && verbosity != Short && verbosity != Tags then m.credits else None));
    PrunedFilm(film.id, if noTitle then None else Some(film.title), film.isShorts, film.url,
      if verbosity == Essential then None else film.basicInfo, more)
  }

  /** `a` is absent, or present and equal to `b`. */
  predicate Agrees<T(==)>(a: Option<T>, b: Option<T>) {
    a.None? || a == b
  }

  /** Every detail `lower` shows, `upper` shows with the same value. */
  predicate MoreBelow(lower: PrunedMore, upper: PrunedMore) {
    match (lower, upper)
    case (Full(m1), Full(m2)) => m1 == m2
    case (Full(_), Summary(_, _, _, _, _)) => false
    case (Summary(c, u, p, t, cr), Full(m)) =>
      c == m.category && u == m.updatedAt &&
      Agrees(p, if m.panelist.Some? then Some(m.panelist.value.name) else None) &&
      Agrees(t, Some(m.tags)) && Agrees(cr, m.credits)
    case (Summary(c1, u1, p1, t1, cr1), Summary(c2, u2, p2, t2, cr2)) =>
      c1 == c2 && u1 == u2 && Agrees(p1, p2) && Agrees(t1, t2) && Agrees(cr1, cr2)
  }

  predicate FilmBelow(lower: PrunedFilm, upper: PrunedFilm) {
    lower.id == upper.id && lower.title == upper.title && lower.isShorts == upper.isShorts &&
    lower.url == upper.url && Agrees(lower.basicInfo, upper.basicInfo) &&
    (lower.moreInfo.None? || (upper.moreInfo.Some? && MoreBelow(lower.moreInfo.value, upper.moreInfo.value)))
  }

  /** Each step up the verbosity ladder only adds detail; it never hides or changes any. */
  lemma PruneLadder(film: FilmInfo, lower: Verbosity, upper: Verbosity, noTitle: bool)
    requires Rank(lower) <= Rank(upper)
    ensures FilmBelow(PruneFilmInfo(film, lower, noTitle), PruneFilmInfo(film, upper, noTitle))
  {
  }

  /** The two ends of the ladder: everything, or only the film's identity. */
  lemma PruneLadderEnds(film: FilmInfo, noTitle: bool)
    ensures PruneFilmInfo(film, Verbose, noTitle).basicInfo == film.basicInfo
    ensures PruneFilmInfo(film, Verbose, noTitle).moreInfo == (if film.moreInfo.Some? then Some(Full(film.moreInfo.value)) else None)
    ensures PruneFilmInfo(film, Essential, noTitle).basicInfo.None? && PruneFilmInfo(film, Essential, noTitle).moreInfo.None?
    ensures PruneFilmInfo(film, Essential, noTitle).id == film.id
    ensures PruneFilmInfo(film, Essential, noTitle).title == (if noTitle then None else Some(film.title))
  {
  }

  /** The default verbosity shows the category but no panelist, tags or credits. */
  lemma PruneBasicLevel(film: FilmInfo, noTitle: bool)
    requires film.moreInfo.Some?
    ensures var p := PruneFilmInfo(film, Basic, noTitle);
      p.basicInfo == film.basicInfo &&
      p.moreInfo == Some(Summary(film.moreInfo.value.category, film.moreInfo.value.updatedAt, None, None, None))
  {
  }

  // ---------------------------------------------------------------------
  // getScreenings.

  /** A screening as the query sees it: its stored records and, when asked for, the films with its title. */
  datatype ScreeningInfo = ScreeningInfo(
    id: string,
    basicInfo: Option<BasicInfo>,
    moreInfo: Option<MoreInfo>,
    filmInfos: Option<seq<FilmInfo>>)

  /** `getFilmsByTitle`: the films whose title is exactly `title`, in catalogue order. */
  function FilmsByTitle(allFilms: seq<FilmInfo>, title: string): seq<FilmInfo> {
    Where(allFilms, (f: FilmInfo) => f.title == title)
  }

  function ScreeningInfoIn(store: Storage, allFilms: seq<FilmInfo>, screeningId: string, withFilmInfo: bool): ScreeningInfo {
    var basic := BasicInfoIn(store, screeningId);
    ScreeningInfo(screeningId, basic, MoreInfoIn(store, screeningId),
      if withFilmInfo && basic.Some? then Some(FilmsByTitle(allFilms, basic.value.title)) else None)
  }

  datatype ScreeningQuery = ScreeningQuery(
    sortByStartTime: bool,
    venues: seq<string>,
    cities: seq<string>,
    titles: seq<string>,
    soldOut: Option<bool>,
    available: Option<bool>,
    screeningTypes: seq<string>,
    categories: seq<string>,
    tags: seq<string>,
    filmIds: seq<string>,
    withFilmInfo: bool)

  /** `Array.from(db.screenings)`: the stored list with repeats dropped, first occurrence first. */
  function ScreeningOrderIn(store: Storage): (ids: seq<string>)
    ensures forall id :: id in ids <==> id in ScreeningsIn(store)
  {
    Dedupe(StringsAt(store, ScreeningsKey))
  }

  /** The ids the query starts from: the current program when only available screenings are wanted. */
  function CandidateIds(store: Storage, q: ScreeningQuery): (ids: seq<string>)
    ensures q.available == Some(true) ==> forall id :: id in ids <==> id in ProgramIn(store)
    ensures q.available != Some(true) ==> forall id :: id in ids <==> id in ScreeningsIn(store)
    ensures q.available != Some(true) ==> forall i, j | 0 <= i < j < |ids| :: ids[i] != ids[j]
  {
    if q.available == Some(true) then ProgramIn(store) else ScreeningOrderIn(store)
  }

  predicate NeedsFilmInfo(q: ScreeningQuery) {
    q.withFilmInfo || |q.categories| > 0 || |q.tags| > 0 || |q.filmIds| > 0
  }

  /** One record per candidate id, in order, read from the store with its films when a stage needs them. */
  function Candidates(store: Storage, allFilms: seq<FilmInfo>, q: ScreeningQuery): (r: seq<ScreeningInfo>)
    ensures |r| == |CandidateIds(store, q)|
    ensures forall i | 0 <= i < |r| :: r[i].id == CandidateIds(store, q)[i]
    ensures forall i | 0 <= i < |r| :: r[i].filmInfos.Some? ==> NeedsFilmInfo(q)
  {
    var ids := CandidateIds(store, q);
    seq(|ids|, i requires 0 <= i < |ids| => ScreeningInfoIn(store, allFilms, ids[i], NeedsFilmInfo(q)))
  }

  const CityPrefix: string := ", "

  function LocationOf(s: ScreeningInfo): string {
    if s.basicInfo.Some? then s.basicInfo.value.location else ""
  }

  function TitleValues(s: ScreeningInfo): seq<string> {
    [if s.basicInfo.Some? then s.basicInfo.value.title else ""]
  }

  /** The venue: what precedes the last `", "` of the location; nothing without one. */
  function VenueValues(s: ScreeningInfo): seq<string> {
    var loc := LocationOf(s);
    var cityIndex := LastIndexOf(loc, CityPrefix);
    if cityIndex != -1 then [loc[..cityIndex]] else []
  }

  /** The city: what follows the last `", "` of the location; nothing without one. */
  function CityValues(s: ScreeningInfo): seq<string> {
    var loc := LocationOf(s);
    var cityIndex := LastIndexOf(loc, CityPrefix);
    if cityIndex != -1 then [loc[cityIndex + |CityPrefix|..]] else []
  }

  /** The named city filters `parkCity` and `slc` test the classification flags. */
  predicate CityOr(s: ScreeningInfo, needle: string) {
    if needle == "parkCity" then s.basicInfo.Some? && s.basicInfo.value.isInParkCity
    else if needle == "slc" then s.basicInfo.Some? && s.basicInfo.value.isInSaltLakeCity
    else false
  }

  function TypeValues(s: ScreeningInfo): seq<string> {
    if s.moreInfo.Some? && s.moreInfo.value.screeningType != "" then [s.moreInfo.value.screeningType] else []
  }

  /** The named type filters `premiere` and `second` test the classification flags. */
  predicate TypeOr(s: ScreeningInfo, needle: string) {
    (needle == "premiere" && s.moreInfo.Some? && s.moreInfo.value.isPremiere)
    || (needle == "second" && s.moreInfo.Some? && s.moreInfo.value.isSecondScreening)
  }

  function FilmsOf(s: ScreeningInfo): seq<FilmInfo> {
    if s.filmInfos.Some? then s.filmInfos.value else []
  }

  function FilmIdValues(s: ScreeningInfo): seq<string> {
    var films := FilmsOf(s);
    seq(|films|, i requires 0 <= i < |films| => films[i].id)
  }

  function CategoryOf(film: FilmInfo): seq<string> {
    if film.moreInfo.Some? && film.moreInfo.value.category != "" then [film.moreInfo.value.category] else []
  }

  function TagsOf(film: FilmInfo): seq<string> {
    if film.moreInfo.Some? then film.moreInfo.value.tags else []
  }

  function FlatMap(films: seq<FilmInfo>, f: FilmInfo -> seq<string>): seq<string> {
    if films == [] then [] else f(films[0]) + FlatMap(films[1..], f)
  }

  function CategoryValues(s: ScreeningInfo): seq<string> {
    FlatMap(FilmsOf(s), CategoryOf)
  }

  function TagValues(s: ScreeningInfo): seq<string> {
    FlatMap(FilmsOf(s), TagsOf)
  }

  /** `!!screening.moreInfo?.isSoldOut`. */
  predicate SoldOutFlag(s: ScreeningInfo) {
    s.moreInfo.Some? && s.moreInfo.value.isSoldOut == Some(true)
  }

  /** `!!screening.basicInfo?.isUnavailable`. */
  predicate UnavailableFlag(s: ScreeningInfo) {
    s.basicInfo.Some? && s.basicInfo.value.isUnavailable == Some(true)
  }

  const StageCount: nat := 9

  /** Stage `k` of the query, in the order the source applies them. */
  function ScreeningStage(q: ScreeningQuery, k: nat, ys: seq<ScreeningInfo>): seq<ScreeningInfo> {
    if k == 0 then Filter(q.titles, ys, TitleValues, None)
    else if k == 1 then (if q.soldOut.Some? then Where(ys, (s: ScreeningInfo) => SoldOutFlag(s) == q.soldOut.value) else ys)
    else if k == 2 then Filter(q.venues, ys, VenueValues, None)
    else if k == 3 then Filter(q.cities, ys, CityValues, Some(CityOr))
    else if k == 4 then Filter(q.screeningTypes, ys, TypeValues, Some(TypeOr))
    else if k == 5 then Filter(q.filmIds, ys, FilmIdValues, None)
    else if k == 6 then Filter(q.categories, ys, CategoryValues, None)
    else if k == 7 then Filter(q.tags, ys, TagValues, None)
    else if k == 8 then (if q.available.Some? then Where(ys, (s: ScreeningInfo) => UnavailableFlag(s) != q.available.value) else ys)
    else ys
  }

  /** The test stage `k` applies to one screening. */
  predicate StageKeeps(q: ScreeningQuery, k: nat, s: ScreeningInfo) {
    if k == 0 then Keeps(q.titles, s, TitleValues, None)
    else if k == 1 then q.soldOut.None? || SoldOutFlag(s) == q.soldOut.value
    else if k == 2 then Keeps(q.venues, s, VenueValues, None)
    else if k == 3 then Keeps(q.cities, s, CityValues, Some(CityOr))
    else if k == 4 then Keeps(q.screeningTypes, s, TypeValues, Some(TypeOr))
    else if k == 5 then Keeps(q.filmIds, s, FilmIdValues, None)
    else if k == 6 then Keeps(q.categories, s, CategoryValues, None)
    else if k == 7 then Keeps(q.tags, s, TagValues, None)
    else if k == 8 then q.available.None? || UnavailableFlag(s) != q.available.value
    else true
  }

  function RunStages(q: ScreeningQuery, k: nat, xs: seq<ScreeningInfo>): seq<ScreeningInfo> {
    if k == 0 then xs else ScreeningStage(q, k - 1, RunStages(q, k - 1, xs))
  }

  predicate KeptThrough(q: ScreeningQuery, k: nat, s: ScreeningInfo) {
    forall j | 0 <= j < k :: StageKeeps(q, j, s)
  }

  /** The screenings the query selects, before any sorting. */
  function Selected(store: Storage, allFilms: seq<FilmInfo>, q: ScreeningQuery): (r: seq<ScreeningInfo>)
    ensures IsSubsequence(r, Candidates(store, allFilms, q))
    ensures forall s | s in Candidates(store, allFilms, q) :: s in r <==> KeptThrough(q, StageCount, s)
  {
    var xs := Candidates(store, allFilms, q);
    var keep := (s: ScreeningInfo) => KeptThrough(q, StageCount, s);
    RunStagesIsWhere(q, StageCount, xs);
    WhereIsSubsequence(xs, keep);
    WhereMembers(xs, keep);
    RunStages(q, StageCount, xs)
  }

  lemma ScreeningStageIsWhere(q: ScreeningQuery, k: nat, ys: seq<ScreeningInfo>)
    ensures ScreeningStage(q, k, ys) == Where(ys, (s: ScreeningInfo) => StageKeeps(q, k, s))
  {
    var keep := (s: ScreeningInfo) => StageKeeps(q, k, s);
    if k == 0 {
      FilterIsWhere(q.titles, ys, TitleValues, None);
      WhereCongruent(ys, r => Keeps(q.titles, r, TitleValues, None), keep);
    } else if k == 1 {
      if q.soldOut.Some? {
        WhereCongruent(ys, (s: ScreeningInfo) => SoldOutFlag(s) == q.soldOut.value, keep);
      } else {
        WhereAll(ys, keep);
      }
    } else if k == 2 {
      FilterIsWhere(q.venues, ys, VenueValues, None);
      WhereCongruent(ys, r => Keeps(q.venues, r, VenueValues, None), keep);
    } else if k == 3 {
      FilterIsWhere(q.cities, ys, CityValues, Some(CityOr));
      WhereCongruent(ys, r => Keeps(q.cities, r, CityValues, Some(CityOr)), keep);
    } else if k == 4 {
      FilterIsWhere(q.screeningTypes, ys, TypeValues, Some(TypeOr));
      WhereCongruent(ys, r => Keeps(q.screeningTypes, r, TypeValues, Some(TypeOr)), keep);
    } else if k == 5 {
      FilterIsWhere(q.filmIds, ys, FilmIdValues, None);
      WhereCongruent(ys, r => Keeps(q.filmIds, r, FilmIdValues, None), keep);
    } else if k == 6 {
      FilterIsWhere(q.categories, ys, CategoryValues, None);
      WhereCongruent(ys, r => Keeps(q.categories, r, CategoryValues, None), keep);
    } else if k == 7 {
      FilterIsWhere(q.tags, ys, TagValues, None);
      WhereCongruent(ys, r => Keeps(q.tags, r, TagValues, None), keep);
    } else if k == 8 {
      if q.available.Some? {
        WhereCongruent(ys, (s: ScreeningInfo) => UnavailableFlag(s) != q.available.value, keep);
      } else {
        WhereAll(ys, keep);
      }
    } else {
      WhereAll(ys, keep);
    }
  }

  lemma KeptThroughStep(q: ScreeningQuery, k: nat, s: ScreeningInfo)
    ensures KeptThrough(q, k + 1, s) == (KeptThrough(q, k, s) && StageKeeps(q, k, s))
  {
  }

  /** One more stage after a filter by the stages before it. */
  lemma StageThen(q: ScreeningQuery, k: nat, xs: seq<ScreeningInfo>)
    ensures ScreeningStage(q, k, Where(xs, (s: ScreeningInfo) => KeptThrough(q, k, s))) ==
      Where(xs, (s: ScreeningInfo) => KeptThrough(q, k + 1, s))
  {
    var before := (s: ScreeningInfo) => KeptThrough(q, k, s);
    var stage := (s: ScreeningInfo) => StageKeeps(q, k, s);
    var through := (s: ScreeningInfo) => KeptThrough(q, k + 1, s);
    ScreeningStageIsWhere(q, k, Where(xs, before));
    forall s | s in xs
      ensures through(s) == (before(s) && stage(s))
    {
      KeptThroughStep(q, k, s);
    }
    WhereThen(xs, before, stage, through);
  }

  /** Running the first `k` stages is one filter by all their tests together. */
  lemma {:induction false} RunStagesIsWhere(q: ScreeningQuery, k: nat, xs: seq<ScreeningInfo>)
    ensures RunStages(q, k, xs) == Where(xs, (s: ScreeningInfo) => KeptThrough(q, k, s))
  {
    if k == 0 {
      WhereAll(xs, (s: ScreeningInfo) => KeptThrough(q, 0, s));
    } else {
      RunStagesIsWhere(q, k - 1, xs);
      RunStagesStep(q, k - 1, xs);
    }
  }

  /** If the first `j` stages filter by their tests, the first `j + 1` do too. */
  lemma RunStagesStep(q: ScreeningQuery, j: nat, xs: seq<ScreeningInfo>)
    requires RunStages(q, j, xs) == Where(xs, (s: ScreeningInfo) => KeptThrough(q, j, s))
    ensures RunStages(q, j + 1, xs) == Where(xs, (s: ScreeningInfo) => KeptThrough(q, j + 1, s))
  {
    StageThen(q, j, xs);
  }

  /**
   * The selection keeps, in candidate order, exactly the candidates that
   * pass every stage: the search stages, `!!isSoldOut == soldOut` and
   * `!!isUnavailable != available`.
   */
  lemma SelectedExactly(store: Storage, allFilms: seq<FilmInfo>, q: ScreeningQuery)
    ensures var xs := Candidates(store, allFilms, q);
      Selected(store, allFilms, q) == Where(xs, (s: ScreeningInfo) => KeptThrough(q, StageCount, s)) &&
      IsSubsequence(Selected(store, allFilms, q), xs)
    ensures forall s :: s in Selected(store, allFilms, q) <==>
      s in Candidates(store, allFilms, q) &&
      (q.soldOut.None? || SoldOutFlag(s) == q.soldOut.value) &&
      (q.available.None? || UnavailableFlag(s) != q.available.value) &&
      Keeps(q.titles, s, TitleValues, None) && Keeps(q.venues, s, VenueValues, None) &&
      Keeps(q.cities, s, CityValues, Some(CityOr)) && Keeps(q.screeningTypes, s, TypeValues, Some(TypeOr)) &&
      Keeps(q.filmIds, s, FilmIdValues, None) && Keeps(q.categories, s, CategoryValues, None) &&
      Keeps(q.tags, s, TagValues, None)
  {
    var xs := Candidates(store, allFilms, q);
    var keep := (s: ScreeningInfo) => KeptThrough(q, StageCount, s);
    RunStagesIsWhere(q, StageCount, xs);
    WhereIsSubsequence(xs, keep);
    forall s
      ensures s in Selected(store, allFilms, q) <==> s in xs && KeptThrough(q, StageCount, s)
    {
      WhereMembership(xs, keep, s);
    }
    forall s
      ensures KeptThrough(q, StageCount, s) <==>
        StageKeeps(q, 0, s) && StageKeeps(q, 1, s) && StageKeeps(q, 2, s) && StageKeeps(q, 3, s) &&
        StageKeeps(q, 4, s) && StageKeeps(q, 5, s) && StageKeeps(q, 6, s) && StageKeeps(q, 7, s) && StageKeeps(q, 8, s)
    {
    }
  }

  /**
   * Venue and city are the two sides of the last `", "` of the location;
   * without one, neither exists, and the city stage keeps a screening only
   * through the `parkCity`/`slc` flags.
   */
  lemma LocationSplit(s: ScreeningInfo, cities: seq<string>)
    ensures var loc := LocationOf(s);
      if Includes(loc, CityPrefix) then
        |VenueValues(s)| == 1 && |CityValues(s)| == 1 &&
        VenueValues(s)[0] + CityPrefix + CityValues(s)[0] == loc &&
        !Includes(CityValues(s)[0], CityPrefix)
      else
        VenueValues(s) == [] && CityValues(s) == [] &&
        (Keeps(cities, s, CityValues, Some(CityOr)) <==>
          !HasEffectiveNeedle(cities) || exists n | n in cities :: CityOr(s, n))
  {
    var loc := LocationOf(s);
    var cityIndex := LastIndexOf(loc, CityPrefix);
    if Includes(loc, CityPrefix) {
      var i :| 0 <= i <= |loc| - |CityPrefix| && OccursAt(loc, CityPrefix, i);
      assert cityIndex != -1;
      SplitAtOccurrence(loc, CityPrefix, cityIndex);
      NothingAfterLast(loc, CityPrefix, cityIndex);
    }
  }

  /** A string is what precedes an occurrence of `needle`, the needle, and what follows it. */
  lemma SplitAtOccurrence(s: string, needle: string, at: int)
    requires OccursAt(s, needle, at)
    ensures s[..at] + needle + s[at + |needle|..] == s
  {
    assert s == s[..at] + s[at..at + |needle|] + s[at + |needle|..];
  }

  /** What follows the last occurrence of a non-empty needle does not contain it. */
  lemma NothingAfterLast(s: string, needle: string, last: int)
    requires needle != [] && OccursAt(s, needle, last)
    requires forall j | last < j <= |s| - |needle| :: !OccursAt(s, needle, j)
    ensures !Includes(s[last + |needle|..], needle)
  {
    var tail := s[last + |needle|..];
    if Includes(tail, needle) {
      var j :| 0 <= j <= |tail| - |needle| && OccursAt(tail, needle, j);
      assert s[last + |needle| + j..last + |needle| + j + |needle|] == tail[j..j + |needle|];
      assert OccursAt(s, needle, last + |needle| + j);
    }
  }

  function StartKey(s: ScreeningInfo): int {
    if s.basicInfo.Some? then s.basicInfo.value.startTime else 0
  }

  predicate SortedByStart(s: seq<ScreeningInfo>) {
    forall i, j | 0 <= i < j < |s| :: StartKey(s[i]) <= StartKey(s[j])
  }

  /**
   * Insertion of `s[i]` under way with the moving element at `j`: the first
   * `i + 1` elements are ordered but for the one at `j`, which is smaller than
   * everything after it.
   */
  ghost predicate Inserting(s: seq<ScreeningInfo>, i: nat, j: nat)
    requires j <= i < |s|
  {
    (forall k, l | 0 <= k < l <= i && k != j && l != j :: StartKey(s[k]) <= StartKey(s[l])) &&
    (forall l | j < l <= i :: StartKey(s[j]) < StartKey(s[l]))
  }

  lemma InsertingStart(s: seq<ScreeningInfo>, i: nat)
    requires i < |s| && SortedByStart(s[..i])
    ensures Inserting(s, i, i)
  {
    forall k, l | 0 <= k < l < i ensures StartKey(s[k]) <= StartKey(s[l]) {
      assert s[..i][k] == s[k] && s[..i][l] == s[l];
    }
  }

  lemma InsertingSwap(s: seq<ScreeningInfo>, i: nat, j: nat)
    requires 0 < j <= i < |s| && Inserting(s, i, j) && StartKey(s[j - 1]) > StartKey(s[j])
    ensures Inserting(s[j - 1 := s[j]][j := s[j - 1]], i, j - 1)
    ensures multiset(s[j - 1 := s[j]][j := s[j - 1]]) == multiset(s)
  {
    var t := s[j - 1 := s[j]][j := s[j - 1]];
    assert t[j - 1] == s[j] && t[j] == s[j - 1];
    forall k, l | 0 <= k < l <= i && k != j - 1 && l != j - 1
      ensures StartKey(t[k]) <= StartKey(t[l])
    {
      if k == j {
        assert StartKey(s[j - 1]) <= StartKey(s[l]);
      } else if l == j {
        assert StartKey(s[k]) <= StartKey(s[j - 1]);
      } else {
        assert t[k] == s[k] && t[l] == s[l];
      }
    }
    forall l | j - 1 < l <= i
      ensures StartKey(t[j - 1]) < StartKey(t[l])
    {
      if l > j {
        assert t[l] == s[l];
      }
    }
  }

  lemma InsertingDone(s: seq<ScreeningInfo>, i: nat, j: nat)
    requires j <= i < |s| && Inserting(s, i, j) && (j == 0 || StartKey(s[j - 1]) <= StartKey(s[j]))
    ensures SortedByStart(s[..i + 1])
  {
    forall k, l | 0 <= k < l <= i ensures StartKey(s[k]) <= StartKey(s[l]) {
      if k == j - 1 && l > j {
        assert StartKey(s[j]) < StartKey(s[l]);
      }
    }
  }

  /** Moves `a[i]` down into the sorted prefix `a[..i]`, as one step of insertion sort. */
  method InsertIntoSorted(a: array<ScreeningInfo>, i: nat)
    requires i < a.Length
    requires SortedByStart(a[..i])
    modifies a
    ensures SortedByStart(a[..i + 1])
    ensures multiset(a[..]) == multiset(old(a[..]))
  {
    InsertingStart(a[..], i);
    var j := i;
    while j > 0 && StartKey(a[j - 1]) > StartKey(a[j])
      invariant 0 <= j <= i
      invariant Inserting(a[..], i, j)
      invariant multiset(a[..]) == multiset(old(a[..]))
    {
      InsertingSwap(a[..], i, j);
      a[j - 1], a[j] := a[j], a[j - 1];
      j := j - 1;
    }
    InsertingDone(a[..], i, j);
  }

  /** `results.sort(...)` by start time, in place (a missing start time counts as 0). */
  method SortByStartTime(a: array<ScreeningInfo>)
    modifies a
    ensures SortedByStart(a[..])
    ensures multiset(a[..]) == multiset(old(a[..]))
  {
    var i := 0;
    while i < a.Length
      invariant 0 <= i <= a.Length
      invariant SortedByStart(a[..i])
      invariant multiset(a[..]) == multiset(old(a[..]))
    {
      InsertIntoSorted(a, i);
      i := i + 1;
    }
    assert a[..a.Length] == a[..];
  }

  /** One search stage of the query; it runs only when needles are given. */
  method SearchStage(needles: seq<string>, ys: seq<ScreeningInfo>, getValues: ScreeningInfo -> seq<string>,
                     or: Option<(ScreeningInfo, string) -> bool>)
    returns (r: seq<ScreeningInfo>)
    ensures r == Filter(needles, ys, getValues, or)
  {
    if |needles| > 0 {
      r := FilterBySearchStrings(needles, ys, getValues, or);
    } else {
      NoNeedlesNoChange(ys, getValues, or);
      r := ys;
    }
  }

  /**
   * `getScreenings`: the stages run one after another over the candidates,
   * then the optional sort.
   */
  method GetScreenings(db: Db, allFilms: seq<FilmInfo>, q: ScreeningQuery) returns (results: seq<ScreeningInfo>)
    ensures !q.sortByStartTime ==> results == Selected(db.store, allFilms, q)
    ensures q.sortByStartTime ==> SortedByStart(results) && multiset(results) == multiset(Selected(db.store, allFilms, q))
  {
    results := RunScreeningStages(q, Candidates(db.store, allFilms, q));
    if q.sortByStartTime {
      var a := new ScreeningInfo[|results|](i requires 0 <= i < |results| => results[i]);
      assert a[..] == results;
      SortByStartTime(a);
      results := a[..];
    }
  }

  /** The nine stages of `getScreenings`, one after another. */
  method RunScreeningStages(q: ScreeningQuery, xs: seq<ScreeningInfo>) returns (results: seq<ScreeningInfo>)
    ensures results == RunStages(q, StageCount, xs)
  {
    results := SearchStage(q.titles, xs, TitleValues, None);
    assert results == RunStages(q, 1, xs);
    if q.soldOut.Some? {
      results := Where(results, (s: ScreeningInfo) => SoldOutFlag(s) == q.soldOut.value);
    }
    assert results == RunStages(q, 2, xs);
    results := SearchStage(q.venues, results, VenueValues, None);
    assert results == RunStages(q, 3, xs);
    results := SearchStage(q.cities, results, CityValues, Some(CityOr));
    assert results == RunStages(q, 4, xs);
    results := SearchStage(q.screeningTypes, results, TypeValues, Some(TypeOr));
    assert results == RunStages(q, 5, xs);
    results := SearchStage(q.filmIds, results, FilmIdValues, None);
    assert results == RunStages(q, 6, xs);
    results := SearchStage(q.categories, results, CategoryValues, None);
    assert results == RunStages(q, 7, xs);
    results := SearchStage(q.tags, results, TagValues, None);
    assert results == RunStages(q, 8, xs);
    if q.available.Some? {
      results := Where(results, (s: ScreeningInfo) => UnavailableFlag(s) != q.available.value);
    }
  }

  // ---------------------------------------------------------------------
  // getFilms.

  datatype FilmsQuery = FilmsQuery(
    all: bool,
    titles: Option<seq<string>>,
    ids: Option<seq<string>>,
    categories: Option<seq<string>>,
    tags: Option<seq<string>>,
    shorts: Option<bool>,
    verbosity: Option<Verbosity>)

  function FilmIdOf(film: FilmInfo): seq<string> {
    [film.id]
  }

  function FilmTitleOf(film: FilmInfo): seq<string> {
    [film.title]
  }

  /** `[...film.moreInfo?.category ?? []]`: the category spread into one-character strings. */
  function CategoryLetters(film: FilmInfo): seq<string> {
    var category := if film.moreInfo.Some? then film.moreInfo.value.category else "";
    seq(|category|, i requires 0 <= i < |category| => [category[i]])
  }

  function FilmTags(film: FilmInfo): seq<string> {
    TagsOf(film)
  }

  /** A search stage that runs only when its needle list is given. */
  function OptionalFilter(needles: Option<seq<string>>, films: seq<FilmInfo>, getValues: FilmInfo -> seq<string>): seq<FilmInfo> {
    if needles.Some? then Filter(needles.value, films, getValues, None) else films
  }

  predicate OptionalKeeps(needles: Option<seq<string>>, film: FilmInfo, getValues: FilmInfo -> seq<string>) {
    needles.None? || Keeps(needles.value, film, getValues, None)
  }

  /** The films `getFilms` selects: shorts flag, then ids, titles, categories and tags. */
  function FilmsSelected(films: seq<FilmInfo>, q: FilmsQuery): seq<FilmInfo> {
    var byShorts := if q.shorts.Some? then Where(films, (f: FilmInfo) => f.isShorts == q.shorts.value) else films;
    var byIds := OptionalFilter(q.ids, byShorts, FilmIdOf);
    var byTitles := OptionalFilter(q.titles, byIds, FilmTitleOf);
    var byCategories := OptionalFilter(q.categories, byTitles, CategoryLetters);
    OptionalFilter(q.tags, byCategories, FilmTags)
  }

  predicate FilmKeeps(q: FilmsQuery, film: FilmInfo) {
    (q.shorts.None? || film.isShorts == q.shorts.value) &&
    OptionalKeeps(q.ids, film, FilmIdOf) && OptionalKeeps(q.titles, film, FilmTitleOf) &&
    OptionalKeeps(q.categories, film, CategoryLetters) && OptionalKeeps(q.tags, film, FilmTags)
  }

  /**
   * `getFilms`: the films of the chosen catalogue that pass every test of the
   * query, in catalogue order, each pruned (default verbosity `basic`).
   */
  function GetFilms(allFilms: seq<FilmInfo>, films: seq<FilmInfo>, q: FilmsQuery): (r: seq<PrunedFilm>)
    ensures var kept := Where(if q.all then allFilms else films, (f: FilmInfo) => FilmKeeps(q, f));
      |r| == |kept| && forall i | 0 <= i < |r| :: r[i] == PruneFilmInfo(kept[i], q.verbosity.GetOr(Basic), false)
  {
    var selected := FilmsSelected(if q.all then allFilms else films, q);
    FilmsSelectedExactly(if q.all then allFilms else films, q);
    seq(|selected|, i requires 0 <= i < |selected| => PruneFilmInfo(selected[i], q.verbosity.GetOr(Basic), false))
  }

  lemma OptionalFilterIsWhere(needles: Option<seq<string>>, films: seq<FilmInfo>, getValues: FilmInfo -> seq<string>)
    ensures OptionalFilter(needles, films, getValues) == Where(films, (f: FilmInfo) => OptionalKeeps(needles, f, getValues))
  {
    var keep := (f: FilmInfo) => OptionalKeeps(needles, f, getValues);
    if needles.Some? {
      FilterIsWhere(needles.value, films, getValues, None);
      WhereCongruent(films, r => Keeps(needles.value, r, getValues, None), keep);
    } else {
      WhereAll(films, keep);
    }
  }

  /**
   * The film stages together are one filter by all their tests: the result
   * keeps, in catalogue order, exactly the films that pass each of them.
   */
  lemma FilmsSelectedExactly(films: seq<FilmInfo>, q: FilmsQuery)
    ensures FilmsSelected(films, q) == Where(films, (f: FilmInfo) => FilmKeeps(q, f))
    ensures IsSubsequence(FilmsSelected(films, q), films)
    ensures forall f :: f in FilmsSelected(films, q) <==> f in films && FilmKeeps(q, f)
  {
    var shortsOk := (f: FilmInfo) => q.shorts.None? || f.isShorts == q.shorts.value;
    var k1 := shortsOk;
    var k2 := (f: FilmInfo) => k1(f) && OptionalKeeps(q.ids, f, FilmIdOf);
    var k3 := (f: FilmInfo) => k2(f) && OptionalKeeps(q.titles, f, FilmTitleOf);
    var k4 := (f: FilmInfo) => k3(f) && OptionalKeeps(q.categories, f, CategoryLetters);
    var k5 := (f: FilmInfo) => FilmKeeps(q, f);
    var byShorts := if q.shorts.Some? then Where(films, (f: FilmInfo) => f.isShorts == q.shorts.value) else films;
    if q.shorts.Some? {
      WhereCongruent(films, (f: FilmInfo) => f.isShorts == q.shorts.value, k1);
    } else {
      WhereAll(films, k1);
    }
    assert byShorts == Where(films, k1);
    var byIds := OptionalFilter(q.ids, byShorts, FilmIdOf);
    OptionalFilterIsWhere(q.ids, byShorts, FilmIdOf);
    WhereThen(films, k1, (f: FilmInfo) => OptionalKeeps(q.ids, f, FilmIdOf), k2);
    var byTitles := OptionalFilter(q.titles, byIds, FilmTitleOf);
    OptionalFilterIsWhere(q.titles, byIds, FilmTitleOf);
    WhereThen(films, k2, (f: FilmInfo) => OptionalKeeps(q.titles, f, FilmTitleOf), k3);
    var byCategories := OptionalFilter(q.categories, byTitles, CategoryLetters);
    OptionalFilterIsWhere(q.categories, byTitles, CategoryLetters);
    WhereThen(films, k3, (f: FilmInfo) => OptionalKeeps(q.categories, f, CategoryLetters), k4);
    OptionalFilterIsWhere(q.tags, byCategories, FilmTags);
    WhereThen(films, k4, (f: FilmInfo) => OptionalKeeps(q.tags, f, FilmTags), k5);
    WhereIsSubsequence(films, k5);
    forall f
      ensures f in FilmsSelected(films, q) <==> f in films && FilmKeeps(q, f)
    {
      WhereMembership(films, k5, f);
    }
  }

  /**
   * Category needles are matched against single letters, so exact needles
   * longer than one character never match: such a category filter keeps nothing.
   */
  lemma LongCategoryNeedlesMatchNothing(needles: seq<string>, films: seq<FilmInfo>)
    requires forall n | n in needles :: !IsFuzzy(n) && |Trim(n)| != 1
    requires HasEffectiveNeedle(needles)
    ensures Filter(needles, films, CategoryLetters, None) == []
  {
    assert FuzzyNeedles(needles) == {};
    forall f | f in films
      ensures !Matches(f, needles, CategoryLetters, None)
    {
      forall v | v in CategoryLetters(f)
        ensures !ValueMatches(v, ExactNeedles(needles), FuzzyNeedles(needles))
      {
        OneLetterMatchesNothing(needles, v);
      }
    }
    WhereNone(films, r => Matches(r, needles, CategoryLetters, None));
  }

  /** A one-letter value is in no exact set whose needles never trim to one letter. */
  lemma OneLetterMatchesNothing(needles: seq<string>, v: string)
    requires forall n | n in needles :: !IsFuzzy(n) && |Trim(n)| != 1
    requires |v| == 1
    ensures !ValueMatches(v, ExactNeedles(needles), FuzzyNeedles(needles))
  {
    assert FuzzyNeedles(needles) == {};
  }

  // ---------------------------------------------------------------------
  // getCategories.

  /** `{title, ...db.getFilmCategory(title)}`. */
  datatype Category<D> = Category(title: string, details: Option<D>)

  function CategoryEntry<D>(details: map<string, D>, title: string): Category<D> {
    Category(title, if title in details then Some(details[title]) else None)
  }

  function CategoryTitle<D>(c: Category<D>): seq<string> {
    [c.title]
  }

  /** The entries for the titles of `source`, in order, each with the details stored for its title, if any. */
  function CategoryEntries<D>(details: map<string, D>, source: seq<string>): (r: seq<Category<D>>)
    ensures |r| == |source|
    ensures forall i | 0 <= i < |source| :: r[i].title == source[i]
    ensures forall i | 0 <= i < |source| :: source[i] in details ==> r[i].details == Some(details[source[i]])
    ensures forall i | 0 <= i < |source| :: source[i] !in details ==> r[i].details.None?
  {
    seq(|source|, i requires 0 <= i < |source| => CategoryEntry(details, source[i]))
  }

  /**
   * `getCategories`: the entries of the chosen collection, in order, with
   * only those whose title a search string picks out when titles are given.
   */
  function GetCategories<D>(all: bool, titles: Option<seq<string>>, allCategories: seq<string>, categories: seq<string>,
                            details: map<string, D>): (r: seq<Category<D>>)
    ensures var entries := CategoryEntries(details, if all then allCategories else categories);
      IsSubsequence(r, entries) &&
      forall c | c in entries :: c in r <==> titles.None? || Keeps(titles.value, c, CategoryTitle, None)
  {
    var entries := CategoryEntries(details, if all then allCategories else categories);
    if titles.Some? then Filter(titles.value, entries, CategoryTitle, None)
    else
      SubsequenceRefl(entries);
      entries
  }

  /**
   * Without titles every entry of the chosen collection is returned in
   * order; with titles, the entries whose title matches, in order.
   */
  lemma GetCategoriesSelects<D>(all: bool, titles: Option<seq<string>>, allCategories: seq<string>, categories: seq<string>,
                                details: map<string, D>)
    ensures var entries := CategoryEntries(details, if all then allCategories else categories);
      var r := GetCategories(all, titles, allCategories, categories, details);
      (titles.None? ==> r == entries) &&
      IsSubsequence(r, entries) &&
      (forall c :: c in r <==> c in entries && (titles.None? || Keeps(titles.value, c, CategoryTitle, None)))
  {
    var entries := CategoryEntries(details, if all then allCategories else categories);
    if titles.Some? {
      var keep := r => Keeps(titles.value, r, CategoryTitle, None);
      FilterIsWhere(titles.value, entries, CategoryTitle, None);
      WhereIsSubsequence(entries, keep);
      forall c
        ensures c in Filter(titles.value, entries, CategoryTitle, None) <==> c in entries && keep(c)
      {
        WhereMembership(entries, keep, c);
      }
    } else {
      SubsequenceRefl(entries);
    }
  }
}
